# ethproxy core in Dafny

A model of the two sequential cores of ethproxy, a JSON-RPC proxy that
sits in front of several Ethereum nodes.

- **Backend health and election** (`src/index.ts`).
  - Each `Server` is probed for its block height. A truthy answer makes it
    active at that height. A call that throws marks it down and raises an
    alert.
  - `findMax` sorts the active servers by height, highest first. The sort
    is in place and stable. `findMax` then keeps the leading run of servers
    at the top height.
  - `check` keeps the current primary if it is in that max set. Otherwise
    the set's first member becomes primary and the upstream file is
    regenerated once.
  - `checkVersions` walks the registry and asks each server it visits for
    its `net_version`. It pulls the servers that disagree with the first
    truthy answer, or whose call throws, out of the array it is iterating
    over. The server that slides into a removed one's slot is never asked.
- **Block-caching middleware** (`src/methods.ts`).
  - `eth_blockNumber` passes the upstream answer through.
  - `eth_getBlockByNumber` and `eth_getBlockByHash` always forward the
    tags `latest`, `earliest` and `pending`. They file the block they get
    back under `block/<number>` and `block/<hash>`, with a `+` suffix for
    full blocks.
  - Any other id is read through the cache under `block/<id>[+]`.

Files:

- `results.dfy` (`Results`) holds `Option` (JavaScript's `undefined` is
  `None`) and `Reply`, the outcome of one JSON-RPC call: a truthy result,
  a falsy one, or a throw with its message.
- `backend.dfy` (`Backend`) holds the `Server` class. Its `state` and
  `height` fields are updated in place.
- `election.dfy` (`Election`) holds `findMax`.
  - It is an in-place insertion sort on an `array<Server>`.
  - The sort is proved equal to `SortDesc`, a stable reference sort on
    height snapshots (`Cand`).
  - `SortDesc` is proved to be sorted and a permutation.
  - The leading-run loop is proved equal to `Fastest`. `Fastest` is a
    non-empty prefix of the servers at the maximum key. When every height
    is known, it holds exactly the servers at the maximum height, in input
    order.
- `monitor.dfy` (`HealthMonitor`) holds the `Monitor` class: the registry,
  the primary, the upstream regenerations and the alerts.
  - `CheckVersions` is the index loop with in-place `pull`. It is proved
    equal to `Survivors`, a definition over the original positions that
    makes visible the server skipped after each removal.
  - `Check` is proved equal to `RoundOutcome`, a value-level election.
    `ElectionMeets` shows that `RoundOutcome` keeps the promises of the
    source, and `Check` and `Start` state those promises (`Elected`) of
    their own result.
- `keys.dfy` (`BlockKeys`) holds the cache keys: the decimal text of
  numbers, tags, `block/<id>[+]`, and when keys collide.
- `methods.dfy` (`Middleware`) holds the `Proxy` class: the cache as a
  `map<string, Value>` plus a count of upstream calls.

Upstream calls are oracles. Each operation is given what the call would
return: a `Reply` for probes and versions, an `Option<Value>` for the
middleware. The upstream calls are:

- `eth_blockNumber` for probes;
- `net_version` for `checkVersions`;
- `request()` for the middleware, where `None` means the call rejects.

Where the code and its own comments disagree, the model follows the
code:

- **`check` can stop early.** When no server is active after the probes,
  `findMax` reads a field of `arr2[0]`, which is `undefined`, and throws
  (src/index.ts:20-21). `check` then stops there (`aborted`). It elects
  nobody and does not reschedule itself. The comment at
  src/index.ts:152-154 says an alert is issued when no server is
  available; the code raises none.
- **`checkVersions` does not exit.** A version mismatch only removes the
  server (src/index.ts:193-199). The comment at src/index.ts:181-183 says
  the program exits. It goes on, even with an empty registry.
- **`checkVersions` skips servers.** Each removal skips the server after
  it unchecked (`SurvivorsSkip`, `ThreeServersSkipped`).

## Model

| member | source | states |
|---|---|---|
| Backend.Server.constructor | src/index.ts:32-41 | a new server carries its configured name and url, is pending and has no height |
| Backend.ProbedState | src/index.ts:62-70 | after a probe a server is active exactly when it answered, or gave a falsy answer while active; down exactly when the call threw (the catch at src/index.ts:158), or gave a falsy answer while down |
| Backend.ProbedHeight | src/index.ts:62-70 | only an answer changes the height, to the answered one, so a known height is never forgotten |
| Backend.Server.GetBlockHeight | src/index.ts:62-70 | a truthy answer sets the height and makes the server active; a falsy one changes nothing; a throw changes nothing and is reported; otherwise the result is the stored height |
| Election.SortDesc | src/index.ts:19 | the reference sort keeps the length of its input |
| Election.SortDescSorted | src/index.ts:19 | the comparator sort orders by descending height, a missing height counting as 0, and is a permutation of its input |
| Election.SortSplit | src/index.ts:19 | stability: with no key above `k`, the sort puts the candidates at key `k` first, in input order, before the sorted rest |
| Election.SortByHeight | src/index.ts:19 | the in-place sort leaves the array equal to the stable reference sort of the heights it started with |
| Election.LeadingServers | src/index.ts:20-29 | the loop with `break` returns the leading run of servers whose height equals the first one's |
| Election.FindMax | src/index.ts:18-30 | throws exactly on an empty array; otherwise sorts the array in place and returns the servers of `Fastest` of the original snapshot |
| Election.LeadingRun | src/index.ts:20-29 | the run the loop collects is a prefix of the sorted list |
| Election.Fastest | src/index.ts:18-30 | findMax on a non-empty list returns a non-empty prefix of the sorted list |
| Election.FastestShape | src/index.ts:18-30 | on a non-empty list the result is non-empty, a prefix of the candidates at the maximum key in input order, and all of one height |
| Election.FastestExact | src/index.ts:18-30 | when every height is known, findMax returns exactly the candidates at the maximum height, in input order |
| HealthMonitor.Pull | src/index.ts:199 | lodash `pull` leaves no occurrence of the pulled value |
| HealthMonitor.PullAt | src/index.ts:199 | on a registry without duplicates, lodash `pull` of the i-th server removes index i and nothing else, keeping the order |
| HealthMonitor.PullKeepsOthers | src/index.ts:199 | `pull` removes every occurrence of the value, keeps every other element, and keeps the order |
| HealthMonitor.Judge | src/index.ts:188-198 | a throw drops the server and keeps the version; with a version fixed, a server stays exactly when it answers that version; with none, any answer keeps the server and becomes the version |
| HealthMonitor.Survivors | src/index.ts:184-201 | checkVersions never adds servers: every survivor comes from the registry and there are no more of them |
| HealthMonitor.SurvivorsSubsequence | src/index.ts:184-202 | checkVersions only removes servers and never reorders the survivors |
| HealthMonitor.SurvivorsAllAgree | src/index.ts:190-196 | when every server answers the same truthy version, nothing is removed |
| HealthMonitor.SurvivorsSkip | src/index.ts:186-199 | after a visited server is removed, the next one survives whatever it answers, and the removed one is gone unless it was registered twice |
| HealthMonitor.ThreeServersOneMismatch | src/index.ts:190-196 | versions "a", "a", "b": the first truthy answer fixes the version and the third server is removed |
| HealthMonitor.ThreeServersSkipped | src/index.ts:186-199 | versions "1", "2", "3": the second server is removed and the third is never asked, so it survives |
| HealthMonitor.ActiveServers | src/index.ts:167 | the filter keeps only active registry members and every active one |
| HealthMonitor.ActiveSnap | src/index.ts:167 | reading the heights of the filtered servers is filtering the registry's views |
| HealthMonitor.ProbedMeasured | src/index.ts:62-70 | a round of probes keeps every active server with a height: a server turns active only on an answer, which brings one, and a height is never forgotten |
| HealthMonitor.RoundOutcome | src/index.ts:167-175 | the round aborts exactly when nobody is active and then changes nothing; otherwise there is a primary, one of the active servers, and the regenerations either stay or grow by that new primary |
| HealthMonitor.ElectionFacts | src/index.ts:170-173 | when every active server has a height, the max set is non-empty, a server is in it exactly when it is at the top height, and its first member is the first such server in registry order |
| HealthMonitor.ElectionMeets | src/index.ts:167-175 | the election aborts exactly when nobody is active and then changes nothing; otherwise the primary is at the top height; a primary already at the top stays with no regeneration; otherwise the primary becomes the first top server and is regenerated exactly once |
| HealthMonitor.RoundMeets | src/index.ts:155-175 | the election after a round of probes on measured servers keeps the promises of `ElectionMeets` |
| HealthMonitor.AlertMessage | src/index.ts:160 | the alert text starts with the server's name and ends with the error message |
| HealthMonitor.FailCount | src/index.ts:158 | the number of probes that threw is at most the number of probes |
| HealthMonitor.DownAlerts | src/index.ts:157-163 | one alert for each probe that threw, and no other |
| HealthMonitor.DownAlertsFrom | src/index.ts:158-161 | every alert is the message of a server whose own probe threw, built from that server and that error |
| HealthMonitor.DownAlertsAppend | src/index.ts:157-165 | alerts follow registry order: those of an earlier part of the registry come before those of a later part |
| HealthMonitor.Includes | src/index.ts:172 | lodash `includes`: true exactly when the primary occurs in the max set, so an unset primary is never included |
| HealthMonitor.Monitor.constructor | src/index.ts:140-145 | one fresh pending server per configured backend, in order; no primary, no regeneration, no alert |
| HealthMonitor.Monitor.ProbeAll | src/index.ts:157-165 | each server takes the state and height its own probe gives, with a throw marking it down; one alert per failed probe, in registry order |
| HealthMonitor.Monitor.Elect | src/index.ts:167-175 | findMax on the active servers, then the primary and the regenerations are those of `RoundOutcome` on the candidates of the current views, aborting when nobody is active |
| HealthMonitor.Monitor.Check | src/index.ts:155-175 | the registry is unchanged; every server's view is its probed view; the alerts are appended; the primary and regenerations are `RoundOutcome` on the probed views of the active servers, and meet `Elected`: a primary at the top height, an old one at the top kept, a new one the first at the top and handed over once |
| HealthMonitor.Monitor.CheckVersions | src/index.ts:184-202 | the loop with in-place `pull` leaves exactly `Survivors` of the old registry, a subsequence of it, with no duplicates |
| HealthMonitor.Monitor.Start | src/index.ts:147-150 | `checkVersions` then `check`: the registry is the survivors, each with its probed view; the alerts are those of their probes; the election is `RoundOutcome` on them and meets `Elected` |
| BlockKeys.Decimal | src/methods.ts:5 | the template-literal text of a block number is a non-empty string of decimal digits, one digit exactly for numbers below ten |
| BlockKeys.DecimalInjective | src/methods.ts:5 | two numbers with the same text are equal |
| BlockKeys.Render | src/methods.ts:5-6 | the template-literal text of an id: a number renders as digits only, and only a string id can render empty or end in `+` |
| BlockKeys.IsTag | src/methods.ts:20 | only the strings `latest`, `earliest` and `pending` are tags, so a numeric or missing id is never forwarded as one |
| BlockKeys.BlockKey | src/methods.ts:5-6 | every key starts with `block/` and is one character longer when `full` is set |
| BlockKeys.FullFlagSeparates | src/methods.ts:5-6 | full and non-full keys for the same id are always different |
| BlockKeys.KeyEquality | src/methods.ts:25 | for ids whose text does not end in `+`, two keys are equal if and only if the ids render alike and the flags agree |
| BlockKeys.NumericKeys | src/methods.ts:25 | for numeric ids, two keys are equal if and only if the numbers and the flags are |
| BlockKeys.NumberAndStringAlike | src/methods.ts:25 | the number 10 and the string "10" share every cache entry |
| BlockKeys.StringCollidesWithFull | src/methods.ts:25 | a string id `"5+"`, not full, shares its entry with block 5, full |
| Middleware.FanoutExact | src/methods.ts:4-10 | cacheBlock sets exactly the number key and the hash key to the block and leaves every other entry alone |
| Middleware.FanoutServesNumber | src/methods.ts:5 | after cacheBlock, any id rendering like the block's number, with the same flag, finds the block |
| Middleware.FanoutServesHash | src/methods.ts:6 | after cacheBlock, any id rendering like the block's hash, with the same flag, finds the block |
| Middleware.FanoutKeepsOtherFlag | src/methods.ts:5-6 | filing a numbered block whose hash does not end in `+` (every `0x…` hash does not) never touches the entry of the other flag for that number |
| Middleware.Fanout | src/methods.ts:4-10 | the cache after cacheBlock has exactly the old keys plus the block's number key and hash key |
| Middleware.Proxy.CacheBlock | src/methods.ts:4-10 | on `null` the read of `number` throws: no result and the cache unchanged; otherwise returns the block unchanged and the cache becomes the fan-out of the old cache |
| Middleware.Proxy.Wrap | src/methods.ts:25 | a hit returns the entry, changes nothing and calls nothing; a miss calls upstream once and stores what it resolves to under that key alone; a rejection stores nothing |
| Middleware.Proxy.Request | src/methods.ts:13 | the `request()` callback: exactly one upstream call, whose answer comes back as it is |
| Middleware.Proxy.EthBlockNumber | src/methods.ts:12-15 | the upstream answer verbatim, one call, cache untouched |
| Middleware.Proxy.EthGetBlockByNumber | src/methods.ts:17-27 | tags forward once whatever the cache holds; a non-null answer is returned and fanned out; a rejection or a `null` answer rejects and leaves the cache alone; any other id is read through under its single key |
| Middleware.Proxy.EthGetBlockByHash | src/methods.ts:28-37 | the same behaviour, keyed by the hash parameter |
| Middleware.Proxy.TagThenNumber | src/methods.ts:20-25 | a tag request returning a non-null value B, then a request for an id rendering like B's number with the same flag, returns B both times with a single upstream call |
| Middleware.Proxy.TagThenHash | src/methods.ts:31-35 | the same for a request by B's hash |
| Middleware.NullTagExample | src/methods.ts:4-5 | `eth_getBlockByNumber(["latest"])` answered with `null` rejects after one upstream call and caches nothing |
| Middleware.KeyOfTenThousand | tests/middlewares.test.ts:20-25 | a plain request for block 10000 uses the key `block/10000` |
| Middleware.FirstLookupExample | tests/middlewares.test.ts:20-25 | `eth_getBlockByNumber([10000])` on an empty cache returns the upstream object, stores it under `block/10000` alone, and calls upstream once |

## Left out

- Hex parsing: `parseInt(result, 16)` is not modelled. A truthy probe
  answer arrives as the number it parses to. A string that parses to
  `NaN` is not modelled.
- JavaScript numbers are modelled as unbounded non-negative integers.
  Their decimal text matches `String(n)` only below 10^21. Negative and
  fractional ids are not modelled.
- `Promise.all` in `check` runs the probes concurrently. Here they run
  one after the other, in registry order. Each probe touches only its own
  server, so the servers' states and heights come out the same. The
  alerts do not: concurrently they arrive in the order the failures
  happen. Recording them in registry order is the model's choice.
- The Telegram alert bot (src/index.ts:86-131) is I/O. An alert is
  recorded as its message text in `alerts`. Delivery, chat ids and the
  chat-id file are left out.
- `generateNginxUpstreams` (src/index.ts:205-219) writes a file and
  signals nginx. Each call is recorded as the primary at that moment, in
  `upstreamUpdates`. The file text and the reload are left out.
- The `setTimeout` rescheduling of `check` (src/index.ts:176-178) and the
  startup at module level (src/index.ts:223-224) are left out. One
  `Check` is one round.
- `console.log` output is left out.
- `tipBlockHeight` is never updated, and the `newParams` argument of
  `request` is never used, so neither is modelled.
- cache-manager: time-to-live, eviction and the store are left out. The
  cache is a plain map.
  - A miss in `wrap` stores whatever the call resolves to. The library's
    own rule on which values are cacheable is left out.
  - `cacheBlock`'s `cache.set` calls are not awaited. Here they complete
    at once.
- An upstream answer is a block, `Null` or `Other`. `Null` stands for
  `null` and `undefined`: reading its `number` throws, so a tag request
  answered with it rejects and caches nothing. Any other value is opaque
  JSON text (`Other`); its `number` and `hash` read as `undefined`, as in
  JavaScript. Fields of a block other than `number` and `hash` are left
  out.
- `params[1]` is modelled by its truthiness (`full`), which is all the
  key uses. A missing `params[0]` is `Absent` and renders as
  `undefined`.
- src/server.ts is HTTP forwarding only and is not part of this model.
- tests/server.test.ts tests a `Server` class that the repository does
  not define, and is not part of this model.
- src/core.ts and src/eth.ts are type declarations. Only `Block`'s
  `number` and `hash` are used.
- `Server.getNetVersion` is an RPC call. Its result is a `Reply<string>`
  input to `CheckVersions`.
