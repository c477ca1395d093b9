# geo-scraper core in Dafny

geo-scraper collects businesses from the DataForSEO Google Maps API by tiling a region
into squares. Workers take squares from a reliable Redis queue and post each one to the
provider as a keyword search at the square's centre, with a zoom level derived from the
radius of the circle through the square's corners. They poll for the result and flatten
the returned items. A square with 100 or more items is split into four half-width
squares, which go back on the queue. A square with fewer items has each item upserted
into a `businesses` table keyed by `place_id`. The square is then marked complete, unless
a step raised on the way (the zoom computation, `items: null`, or a failed save); such a
square stays claimed until the janitor re-queues it. A janitor re-queues squares whose
claim has gone stale.

The project models three pieces:

- `queue.dfy` (module `Queue`, using `lists.dfy` and `tasks.dfy`) is the reliable queue
  of `queue_manager.py`. It has two parts:
  - a value `Store` with the three keys (`pending` list, `processing` list, `meta` hash
    from task to claim time), and one function per operation;
  - a class `QueueManager` whose methods update those fields in place and are proved
    equal to the functions.

  A Redis list is a `seq` with its head (the `LPUSH` end) at index 0. `LREM key 0 x` is
  `Lists.Without(s, {x})`. The janitor walks its `HGETALL` snapshot in an unspecified
  order, and its result is stated in closed form over the set of stale tasks.
- `worker.dfy` (module `Worker`) is the pipeline of `worker.py`:
  - the bounded poll loop of `get_task_result`;
  - the items loop;
  - the `save_business` upsert rule on a `map<PlaceId, Business>`;
  - `process_task`, which acts on a `QueueManager` and a `BusinessTable` and is proved
    against the branch-or-persist rule `Decide`.

  Posting is reduced to the task id it returned, or to the exception its zoom
  computation raises. The provider's replies are a function from attempt number to reply.
- `geo.dfy` (module `Geo`) is the spatial partitioner of `geo_utils.py`, over exact
  reals. The cosine of the latitude is a parameter `cosLat`. The radius
  `ceil(width * sqrt(2) / 2)` is specified without a square root. For a positive width it
  is the least natural `r` with `2r² ≥ width²`. In general it is the least integer `r`
  whose circle reaches the square's corners (`Covers`).

`wrappers.dfy` holds `Option`, which stands for Python's `None`.

## Model

| member | source | states |
|---|---|---|
| Queue.Pushed | queue_manager.py:27-29 | `push_task` puts the task at the head of pending and preserves the queue invariant (a task is in processing exactly when it has a claim time) |
| Queue.Popped | queue_manager.py:19-25 | empty pending: `None`, nothing changes; otherwise pending loses its last (oldest) task, which heads processing and gets claim time `now` in one step; the invariant is preserved |
| Queue.Completed | queue_manager.py:51-59 | afterwards the task has no in-flight copy and no claim time; every other task keeps all its in-flight copies and its claim time; pending is unchanged; the invariant is preserved |
| Queue.CompleteKeepsOrder | queue_manager.py:57 | `LREM processing 0 task` keeps the other in-flight tasks in order: a prefix free of the task stays in front unchanged, followed by the rest without its copies |
| Queue.CompleteIdempotent | queue_manager.py:57-58 | completing a task a second time changes nothing |
| Queue.Cleared | queue_manager.py:88-91 | all three keys are empty afterwards |
| Queue.DuplicateClaim | queue_manager.py:20-22 | claiming a task that is already in flight adds a second in-flight copy, but the single meta entry is overwritten with the new time and meta does not grow |
| Queue.PushAllEffect | queue_manager.py:27-29 | a series of pushes puts the tasks in front of pending, newest first, and changes nothing else |
| Queue.DrainOrder | queue_manager.py:19-25 | claiming as many times as there are pending tasks returns them oldest first |
| Queue.Fifo | queue_manager.py:19-29 | after pushes, the claims return the tasks that were already pending and then the pushed ones, in push order |
| Queue.StaleOfListing | queue_manager.py:71-72 | the entries the janitor treats as stale are exactly the meta entries with `now - start > timeout` (strict) |
| Queue.RecoverEntry | queue_manager.py:72-84 | one snapshot entry adds at most 1 to the count |
| Queue.RecoverEntryEffect | queue_manager.py:72-84 | a fresh entry changes nothing; a stale one leaves its task with no in-flight copy and no claim time, pushed at the head of pending, and counts 1 exactly when an in-flight copy was removed |
| Queue.Recover | queue_manager.py:71-86 | the fold over the entries handled: the count is at most the number of entries, and pending grows by at most one task per entry |
| Queue.RecoverMeta | queue_manager.py:78 | a janitor pass removes exactly the stale tasks from meta |
| Queue.RecoverProcessing | queue_manager.py:77 | a janitor pass removes every in-flight copy of each stale task, and only those |
| Queue.RecoverPending | queue_manager.py:79 | each stale task is pushed back exactly once, in front of what was pending |
| Queue.RecoverTally | queue_manager.py:82-84 | the count is the number of stale tasks that still had an in-flight copy (a task whose `LREM` removed nothing is re-pushed but not counted) |
| Queue.RecoverListing | queue_manager.py:61-86 | closed form of a pass over the whole meta snapshot, in any order: meta loses the stale tasks, processing loses their copies, pending gains each once at the front, and the count is as above |
| Queue.RecoverCount | queue_manager.py:66-86 | the count is at most the number of stale entries, and on a consistent store it equals it |
| Queue.RecoverConsistent | queue_manager.py:61-86 | a janitor pass preserves the queue invariant |
| Queue.RecoverSparesFresh | queue_manager.py:71-72 | an entry whose age is at most the timeout (equal included) keeps its claim time and all its in-flight copies |
| Queue.QueueManager.constructor | queue_manager.py:7-16 | connecting leaves the three keys as they were |
| Queue.QueueManager.PushTask | queue_manager.py:27-29 | the new state is `Pushed` of the old one; one push is recorded |
| Queue.QueueManager.PopTask | queue_manager.py:31-49 | the new state and the returned task are `Popped` of the old state at `now` |
| Queue.QueueManager.CompleteTask | queue_manager.py:51-59 | the new state is `Completed` of the old one |
| Queue.QueueManager.Janitor | queue_manager.py:61-86 | the meta entries older than `timeout` are gone from meta, their tasks have no in-flight copy left and are re-queued in front of pending once each; `recovered` counts those that still had an in-flight copy |
| Queue.QueueManager.RecoverSnapshot | queue_manager.py:69-86 | the loop over the snapshot handles each entry exactly once, in some order, and its effect is the fold `Recover` over that order |
| Queue.QueueManager.RecoverOne | queue_manager.py:72-84 | one entry: no change when fresh; otherwise the transaction, counted only when `LREM` removed something |
| Queue.QueueManager.RequeueStale | queue_manager.py:76-80 | the `LREM`/`HDEL`/`LPUSH` transaction; its reply is the number of in-flight copies removed |
| Queue.QueueManager.ClearQueues | queue_manager.py:88-91 | the new state is the empty store |
| Lists.Without | queue_manager.py:57 | `LREM key 0 x` never lengthens the list |
| Lists.WithoutMembers | queue_manager.py:57 | `LREM key 0 x` leaves no copy of `x` and keeps every other element |
| Lists.WithoutConcat | queue_manager.py:57 | removal distributes over concatenation, so what remains keeps its relative order |
| Lists.WithoutCount | queue_manager.py:57 | `LREM key 0 x` keeps every other element's multiplicity; the number removed is the multiplicity of `x` |
| Geo.Ceil | geo_utils.py:9 | `math.ceil`: the least integer not below its argument |
| Geo.CircumscribedRadius | geo_utils.py:3-9 | the least integer radius whose circle reaches the corners of the square (`2r² ≥ w²`, with minimality) |
| Geo.CircumscribedRadiusMonotone | geo_utils.py:3-9 | the radius never decreases as the width grows |
| Geo.CircumscribedRadiusPositive | geo_utils.py:8-9 | the radius is positive exactly when the width is |
| Geo.ZoomLevel | geo_utils.py:11-31 | the sentinel branch (`Level(21)`) is taken exactly when the radius is not positive; otherwise the ratio `40075000·cos / (2·radius)` whose `log2` is floored, or a domain error when that ratio is not positive |
| Geo.ZoomForSquare | worker.py:33-34 | the zoom that `post_task` computes for a square takes the sentinel branch exactly when the width is not positive |
| Geo.SplitSquare | geo_utils.py:33-60 | four sub-squares of half the width, offset by a quarter width north/south and east/west in metres (`dLat = (w/4)/111000`, `dLng = (w/4)/(111000·cos)`), in the order top-right, top-left, bottom-right, bottom-left |
| Geo.SplitCentroid | geo_utils.py:53-58 | the four centres average to the parent's centre |
| Geo.SplitTiles | geo_utils.py:53-58 | in local metres, the sub-squares tile the parent: each point of it lies in the sub-square of its quadrant, each sub-square lies inside it, and their interiors do not overlap |
| Worker.Classify | worker.py:88-106 | an attempt retries exactly on an exception or outer 20000 with task status 40602; it yields a result only on 20000/20000 |
| Worker.PollFrom | worker.py:86-109 | the loop from attempt `k` ends after more than `k` and at most 20 attempts |
| Worker.PollOutcome | worker.py:86-109 | between 1 and 20 attempts; all but the last retried; the value is the last attempt's verdict, or `None` after 20 retries; a value is returned only on a 20000/20000 reply carrying it |
| Worker.PollSeesTwenty | worker.py:86-87 | only the first 20 replies can affect the outcome |
| Worker.GetTaskResult | worker.py:78-109 | the loop returns the value and attempt count of `PollFrom` from attempt 0 |
| Worker.Flatten | worker.py:173-176 | when the loop succeeds, no result object had `items: null` and every present `items` list fits in the result; `None` stands for the `TypeError` of `items.extend(None)` |
| Worker.FlattenFails | worker.py:174-176 | the items loop raises exactly when some result object has `items: null` |
| Worker.FlattenConcat | worker.py:173-176 | flattening distributes over concatenation of result lists |
| Worker.FlattenContents | worker.py:173-176 | on success, `items` is the in-order concatenation of the `items` lists of the objects that have the key |
| Worker.CollectItems | worker.py:173-178 | the loop computes `Flatten` of the result list |
| Worker.Upsert | worker.py:111-144 | the statement raises exactly when the item has no `place_id` or a `null` `address_info` |
| Worker.UpsertEffect | worker.py:118-139 | a new place gets a row with `keywords_found = [keyword]`; an existing one gets `old + [keyword]`; every column is overwritten from the item, `website` and `maps_url` both from `url`; no other row changes |
| Worker.UpsertAll | worker.py:198-199 | the saves of a list of items in order never remove a row, and change nothing when no item is savable |
| Worker.UpsertAllKeywords | worker.py:198-199 | after the saves, a place's keywords are its old keywords followed by one copy of the keyword per item that saved it (no deduplication); a place no item saved is unchanged |
| Worker.UpsertAllKeys | worker.py:198-199 | the table holds the places it had and those of the savable items |
| Worker.BusinessTable.SaveBusiness | worker.py:111-144 | the table becomes the upsert of the item, or stays as it was when the statement raises; one save is recorded |
| Worker.Children | worker.py:185-193 | four tasks with the split square's centres, half the width and the parent's keyword |
| Worker.PostRaisesWhen | worker.py:33-34 | `post_task` raises before its request (outside its `try`) exactly for a square of positive width at a latitude whose cosine is not positive, where `math.log2` rejects the ratio |
| Worker.Decide | worker.py:162-199 | the branch rule: a split has four children; a save path has 1 to 99 items |
| Worker.DecideItems | worker.py:178-199 | the rule once the items are collected: a split has four children; a save path carries exactly the collected items, 1 to 99 of them |
| Worker.SaveShape | worker.py:194-199 | on `Saved` every item can be saved; on `SaveFailed` at least one cannot |
| Worker.DecideCases | worker.py:162-199 | the branch rule from the inputs: the post raises, the post fails (no or empty id), the poll yields `None`, `items: null`, 100 or more items (split, or the division by a zero cosine raises), 1 to 99 items (save), 0 items; every case in both directions |
| Worker.SplitShape | worker.py:182-193 | a split has exactly four children of half width with the task's keyword and saves nothing |
| Worker.CompletesOnce | worker.py:162-202 | every path that does not raise completes the task exactly once, as its last queue operation, after nothing but pushes; a raising path invokes no queue operation |
| Worker.QueueEffectShape | worker.py:182-202 | a completing path leaves the task neither in flight nor claimed and keeps every other task's copies and claim time; only a split changes pending, putting the children in front; a raising path changes nothing |
| Worker.ProcessTask | worker.py:146-202 | the outcome is `Decide` of the task, the post's id and the poll's value, including the paths that raise before `complete_task`; the queue calls, the queue state, the saves and the table are exactly those of that outcome |
| Worker.HandleItems | worker.py:178-202 | from the collected items on, the outcome is `DecideItems`; the queue calls, the queue state, the saves and the table are exactly those of that outcome |
| Worker.PushChildren | worker.py:186-193 | one push per child in order; the queue becomes `PushAll` of the children |
| Worker.SaveAll | worker.py:198-199 | one save per item in order, each tagged with the keyword; `allSaved` is false exactly when some item's save raises |

## Left out

- The Redis client, script registration, pipelines and JSON encoding. A task's JSON text is its identity, so two dicts with equal contents but different key order, which `json.dumps` would encode differently, are one task here.
- Claim times are exact reals. `time.time()` and the string round trip through the hash are not modelled, and neither is a malformed timestamp that `float()` rejects.
- Concurrency between clients is not modelled. Each queue operation is one atomic step. No other client acts between the janitor's `HGETALL` and its transactions: `QueueManager.RecoverSnapshot` requires the snapshot to equal `meta`.
- `worker_loop` and `main.py` are not modelled (semaphores, `create_task`, sleeps, the random 1% janitor trigger, the Typer CLI). These are scheduling and timing concerns.
- `post_task` is reduced to the task id it returns, or to the exception its zoom computation raises. The HTTP request, its payload (`location_coordinate` holds the latitude, longitude and zoom), BasicAuth and the `task_ids.jsonl` log are not modelled. The radius is only an input to the zoom, which is covered by `Geo.ZoomForSquare` and `Worker.PostRaisesWhen`.
- The credentials check in `process_task` (worker.py:153-158) has no effect and is not modelled.
- `Worker.SaveAll` runs the saves one after another in list order. `asyncio.gather` runs them concurrently, so the commit order of two items with the same `place_id` in one page is not fixed. The keyword each appends is the same, but `ON CONFLICT DO UPDATE` overwrites name, city, full_address, category, website and maps_url from whichever save commits last, while `UpsertAll` always keeps the later item in list order. After the first save raises, `gather` lets the exception out while the other saves go on. The model runs them all and then skips `complete_task`.
- Database failures other than a missing `place_id` or a `null` `address_info` are not modelled. models.py's schema and engines become the `Business` datatype.
- Other malformed replies are not modelled: a result list or result object that is not a list or dict, an `items` value that is not a list, a missing task field. Only `items: null` and the poll's exceptions are.
- Geo.CircumscribedRadius: the radius is computed over exact reals. Python's float product `width * math.sqrt(2) / 2` may round across an integer, and this model does not capture that.
- Geo.ZoomLevel: `math.cos`, `math.log2` and `floor` on the non-degenerate path are floating point. The model returns the ratio whose logarithm `calculate_zoom_level` floors. That floored value can itself be 21, or more than 21 (a radius of 5 to 9 metres at the equator gives 21, one of 1 to 4 metres gives 22 to 24); the model does not compute it.
- Geo.SplitSquare: requires `cosLat != 0`, where Python would raise `ZeroDivisionError`. The float cosine of any latitude is never exactly zero; `Worker.Decide` models that exception as its `SplitRaised` path.
- Worker.ProcessTask: `math.ceil` raising on a NaN or infinite width is not modelled, since widths are exact reals.
- exporter.py (pandas and Excel output), main.py and the float formatting of `location_coordinate` are not modelled.
