/** The reliable queue of `queue_manager.py`: three Redis keys that together form one
    at-least-once queue.
      - `pending` (`tasks:pending`): tasks waiting to be claimed;
      - `processing` (`tasks:processing`): claimed tasks, one copy per claim;
      - `meta` (`tasks:processing:meta`): a hash from a task to the time it was claimed.
    A task is identified by its JSON encoding, which the model takes to be the task value
    itself. Every Redis list has its head at index 0. */
module Queue {
  import opened Wrappers
  import opened Lists
  import opened Tasks

  /** The contents of the three keys at one instant. */
  datatype Store = Store(pending: seq<Task>, processing: seq<Task>, meta: map<Task, real>)

  /** The queue invariant: a task is in the in-flight list exactly when it has a claim time. */
  ghost predicate Consistent(s: Store)
  {
    forall t :: t in s.processing <==> t in s.meta
  }

  /** `push_task`: `LPUSH tasks:pending task`. */
  function Pushed(s: Store, t: Task): (r: Store)
    ensures Consistent(s) ==> Consistent(r)
  {
    s.(pending := [t] + s.pending)
  }

  /** `pop_task`: the Lua script's `RPOPLPUSH` from pending to processing followed,
      when a task came out, by `HSET meta task now`. */
  function Popped(s: Store, now: real): (r: (Store, Option<Task>))
    ensures Consistent(s) ==> Consistent(r.0)
    ensures s.pending == [] <==> r.1 == None
    ensures r.1 == None ==> r.0 == s
    ensures r.1.Some? ==> var t := r.1.value;
      && s.pending == r.0.pending + [t]
      && r.0.processing == [t] + s.processing
      && r.0.meta == s.meta[t := now]
  {
    if s.pending == [] then (s, None)
    else
      var t := s.pending[|s.pending| - 1];
      (Store(s.pending[..|s.pending| - 1], [t] + s.processing, s.meta[t := now]), Some(t))
  }

  /** `complete_task`: `LREM processing 0 task` and `HDEL meta task` in one transaction. */
  function Completed(s: Store, t: Task): (r: Store)
    ensures t !in r.processing && t !in r.meta
    ensures r.pending == s.pending
    ensures forall y :: y != t ==> multiset(r.processing)[y] == multiset(s.processing)[y]
    ensures forall y :: y in s.meta && y != t ==> y in r.meta && r.meta[y] == s.meta[y]
    ensures r.meta.Keys == s.meta.Keys - {t}
    ensures Consistent(s) ==> Consistent(r)
  {
    WithoutMembers(s.processing, {t}, t);
    forall y ensures multiset(Without(s.processing, {t}))[y] == if y in {t} then 0 else multiset(s.processing)[y] {
      WithoutCount(s.processing, {t}, y);
    }
    forall y ensures y in Without(s.processing, {t}) <==> y in s.processing && y !in {t} {
      WithoutMembers(s.processing, {t}, y);
    }
    s.(processing := Without(s.processing, {t}), meta := s.meta - {t})
  }

  /** `clear_queues`: all three keys deleted. */
  function Cleared(): (r: Store)
    ensures r.pending == [] && r.processing == [] && r.meta == map[]
    ensures Consistent(r)
  {
    Store([], [], map[])
  }

  /** The task claimed at `start` has been in flight strictly longer than `timeout` at `now`. */
  predicate IsStale(start: real, now: real, timeout: real)
  {
    now - start > timeout
  }

  /** The in-flight entries of `meta` that the janitor recovers at `now`. */
  function StaleKeys(meta: map<Task, real>, now: real, timeout: real): (r: set<Task>)
  {
    set t | t in meta && IsStale(meta[t], now, timeout)
  }

  /** The janitor's work on one snapshot entry `(t, start)`: when stale, one transaction of
      `LREM processing 0 t`, `HDEL meta t` and `LPUSH pending t`. The entry counts as
      recovered only when `LREM` replied with a positive number; the task is pushed back
      either way. */
  function RecoverEntry(s: Store, t: Task, start: real, now: real, timeout: real): (r: (Store, nat))
    ensures r.1 <= 1
  {
    if IsStale(start, now, timeout) then
      var removed := multiset(s.processing)[t];
      (Store([t] + s.pending, Without(s.processing, {t}), s.meta - {t}), if removed > 0 then 1 else 0)
    else
      (s, 0)
  }

  /** One snapshot entry: a fresh one changes nothing; a stale one leaves its task with no
      in-flight copy and no claim time, pushed once at the head of pending, and is counted
      exactly when `LREM` found an in-flight copy. */
  lemma RecoverEntryEffect(s: Store, t: Task, start: real, now: real, timeout: real)
    ensures var r := RecoverEntry(s, t, start, now, timeout);
      && (!IsStale(start, now, timeout) ==> r == (s, 0))
      && (IsStale(start, now, timeout) ==>
            && t !in r.0.processing && t !in r.0.meta && r.0.pending == [t] + s.pending
            && (r.1 == 1 <==> t in s.processing))
  {
    WithoutMembers(s.processing, {t}, t);
  }

  /** The janitor after it has worked through the snapshot entries `es` in that order:
      the store it leaves and the number of tasks it counted as recovered. */
  function Recover(s: Store, es: seq<(Task, real)>, now: real, timeout: real): (r: (Store, nat))
    ensures r.1 <= |es|
    ensures |r.0.pending| <= |s.pending| + |es|
  {
    if es == [] then (s, 0)
    else
      var e := es[|es| - 1];
      var before := Recover(s, es[..|es| - 1], now, timeout);
      var after := RecoverEntry(before.0, e.0, e.1, now, timeout);
      (after.0, before.1 + after.1)
  }

  /** The tasks named by the entries. */
  function KeysOf(es: seq<(Task, real)>): (r: set<Task>)
  {
    if es == [] then {} else KeysOf(es[..|es| - 1]) + {es[|es| - 1].0}
  }

  /** No task is named by two entries (a hash snapshot has this property). */
  predicate DistinctKeys(es: seq<(Task, real)>)
  {
    es == [] || (DistinctKeys(es[..|es| - 1]) && es[|es| - 1].0 !in KeysOf(es[..|es| - 1]))
  }

  /** The tasks of the entries that are stale at `now`. */
  function StaleOf(es: seq<(Task, real)>, now: real, timeout: real): (r: set<Task>)
    ensures r <= KeysOf(es)
  {
    if es == [] then {}
    else
      var e := es[|es| - 1];
      StaleOf(es[..|es| - 1], now, timeout) + if IsStale(e.1, now, timeout) then {e.0} else {}
  }

  /** Every entry carries the claim time that `meta` records for its task. */
  ghost predicate AgreesWith(es: seq<(Task, real)>, meta: map<Task, real>)
  {
    forall i :: 0 <= i < |es| ==> es[i].0 in meta && meta[es[i].0] == es[i].1
  }

  /** When the entries are a listing of `meta` (as `HGETALL` returns it), the stale tasks
      they name are exactly the stale keys of `meta`. */
  lemma {:induction false} StaleOfListing(es: seq<(Task, real)>, meta: map<Task, real>, now: real, timeout: real)
    requires AgreesWith(es, meta)
    ensures StaleOf(es, now, timeout) == set t | t in KeysOf(es) && t in meta && IsStale(meta[t], now, timeout)
  {
    if es != [] {
      var prefix := es[..|es| - 1];
      assert AgreesWith(prefix, meta) by {
        forall i | 0 <= i < |prefix| ensures prefix[i].0 in meta && meta[prefix[i].0] == prefix[i].1 {
          assert prefix[i] == es[i];
        }
      }
      StaleOfListing(prefix, meta, now, timeout);
    }
  }

  /** A janitor pass drops exactly the claim times of the stale entries. */
  lemma {:induction false} RecoverMeta(s: Store, es: seq<(Task, real)>, now: real, timeout: real)
    ensures Recover(s, es, now, timeout).0.meta == s.meta - StaleOf(es, now, timeout)
  {
    if es != [] {
      RecoverMeta(s, es[..|es| - 1], now, timeout);
    }
  }

  /** A janitor pass removes every in-flight copy of the stale tasks and keeps the order of
      the rest. */
  lemma {:induction false} RecoverProcessing(s: Store, es: seq<(Task, real)>, now: real, timeout: real)
    ensures Recover(s, es, now, timeout).0.processing == Without(s.processing, StaleOf(es, now, timeout))
  {
    if es == [] {
      WithoutAbsent(s.processing, {});
    } else {
      var prefix, e := es[..|es| - 1], es[|es| - 1];
      RecoverProcessing(s, prefix, now, timeout);
      var before := Recover(s, prefix, now, timeout).0;
      var stale0 := StaleOf(prefix, now, timeout);
      assert Recover(s, es, now, timeout).0 == RecoverEntry(before, e.0, e.1, now, timeout).0;
      if IsStale(e.1, now, timeout) {
        assert StaleOf(es, now, timeout) == stale0 + {e.0};
        WithoutTwice(s.processing, stale0, {e.0});
      } else {
        assert StaleOf(es, now, timeout) == stale0;
      }
    }
  }

  /** A janitor pass over distinct entries pushes each stale task back onto pending exactly
      once, in front of the tasks that were already pending. */
  lemma {:induction false} RecoverPending(s: Store, es: seq<(Task, real)>, now: real, timeout: real)
    requires DistinctKeys(es)
    ensures RequeuedInFront(Recover(s, es, now, timeout).0.pending, s.pending, StaleOf(es, now, timeout))
  {
    if es != [] {
      var prefix, e := es[..|es| - 1], es[|es| - 1];
      RecoverPending(s, prefix, now, timeout);
      var before := Recover(s, prefix, now, timeout).0;
      var stale0 := StaleOf(prefix, now, timeout);
      assert e.0 !in stale0;
      assert Recover(s, es, now, timeout).0 == RecoverEntry(before, e.0, e.1, now, timeout).0;
      if IsStale(e.1, now, timeout) {
        assert StaleOf(es, now, timeout) == stale0 + {e.0};
        RequeueOneMore(before.pending, s.pending, stale0, e.0);
      } else {
        assert StaleOf(es, now, timeout) == stale0;
      }
    }
  }

  /** `p` is `q` with each task of `stale` pushed in front of it once, in some order. */
  ghost predicate RequeuedInFront(p: seq<Task>, q: seq<Task>, stale: set<Task>)
  {
    && |p| == |q| + |stale|
    && p[|stale|..] == q
    && multiset(p[..|stale|]) == multiset(stale)
  }

  lemma RequeueOneMore(p: seq<Task>, q: seq<Task>, stale: set<Task>, t: Task)
    requires RequeuedInFront(p, q, stale) && t !in stale
    ensures RequeuedInFront([t] + p, q, stale + {t})
  {
    AddToSet(stale, t);
    assert ([t] + p)[|stale| + 1..] == p[|stale|..];
    assert ([t] + p)[..|stale| + 1] == [t] + p[..|stale|];
  }

  /** Adding a new element to a set adds one to its size and one copy to its multiset. */
  lemma AddToSet(a: set<Task>, x: Task)
    requires x !in a
    ensures |a + {x}| == |a| + 1
    ensures multiset(a + {x}) == multiset(a) + multiset{x}
  {
    forall y ensures multiset(a + {x})[y] == (multiset(a) + multiset{x})[y] {
      assert y in a + {x} <==> y in a || y == x;
    }
  }

  /** The count a janitor pass over distinct entries returns is the number of stale tasks
      that still had an in-flight copy. */
  lemma {:induction false} RecoverTally(s: Store, es: seq<(Task, real)>, now: real, timeout: real)
    requires DistinctKeys(es)
    ensures Recover(s, es, now, timeout).1 == |StaleOf(es, now, timeout) * (set x | x in s.processing)|
  {
    if es != [] {
      var prefix, e := es[..|es| - 1], es[|es| - 1];
      RecoverTally(s, prefix, now, timeout);
      var stale0 := StaleOf(prefix, now, timeout);
      assert e.0 !in stale0;
      TallyStep(s, prefix, e, now, timeout);
    }
  }

  /** The count grows by one exactly for a stale entry whose task is still in flight. */
  lemma TallyStep(s: Store, prefix: seq<(Task, real)>, e: (Task, real), now: real, timeout: real)
    requires e.0 !in StaleOf(prefix, now, timeout)
    ensures var inFlight := set x | x in s.processing;
      && Recover(s, prefix + [e], now, timeout).1 ==
           Recover(s, prefix, now, timeout).1 + (if IsStale(e.1, now, timeout) && e.0 in inFlight then 1 else 0)
      && |StaleOf(prefix + [e], now, timeout) * inFlight| ==
           |StaleOf(prefix, now, timeout) * inFlight| + (if IsStale(e.1, now, timeout) && e.0 in inFlight then 1 else 0)
  {
    var es := prefix + [e];
    assert es[..|es| - 1] == prefix;
    var stale0 := StaleOf(prefix, now, timeout);
    var inFlight := set x | x in s.processing;
    RecoverProcessing(s, prefix, now, timeout);
    if IsStale(e.1, now, timeout) {
      WithoutMembers(s.processing, stale0, e.0);
      MeetOneMore(stale0, inFlight, e.0);
    }
  }

  lemma MeetOneMore(a: set<Task>, b: set<Task>, t: Task)
    requires t !in a
    ensures |(a + {t}) * b| == |a * b| + if t in b then 1 else 0
  {
    if t in b {
      assert (a + {t}) * b == (a * b) + {t};
    } else {
      assert (a + {t}) * b == a * b;
    }
  }

  /** One more entry of a snapshot listing. */
  lemma ListingExtend(done: seq<(Task, real)>, snapshot: map<Task, real>, keys: set<Task>, t: Task)
    requires keys <= snapshot.Keys && t in keys
    requires KeysOf(done) == snapshot.Keys - keys
    requires DistinctKeys(done) && AgreesWith(done, snapshot)
    ensures var more := done + [(t, snapshot[t])];
      && KeysOf(more) == snapshot.Keys - (keys - {t})
      && DistinctKeys(more) && AgreesWith(more, snapshot)
  {
    var more := done + [(t, snapshot[t])];
    assert more[..|more| - 1] == done;
  }

  /** Working through one more entry. */
  lemma RecoverAppend(s: Store, es: seq<(Task, real)>, e: (Task, real), now: real, timeout: real)
    ensures var before := Recover(s, es, now, timeout);
      var step := RecoverEntry(before.0, e.0, e.1, now, timeout);
      Recover(s, es + [e], now, timeout) == (step.0, before.1 + step.1)
  {
    assert (es + [e])[..|es|] == es;
  }

  /** The closed form of a janitor pass over a listing of the whole `meta` hash: the stale
      tasks lose their claim time and every in-flight copy, each is pushed back onto pending
      once (in front of what was already pending), the count is the number of stale tasks
      that still had an in-flight copy, and nothing else changes. */
  lemma RecoverListing(s: Store, es: seq<(Task, real)>, now: real, timeout: real)
    requires DistinctKeys(es) && AgreesWith(es, s.meta) && KeysOf(es) == s.meta.Keys
    ensures var r := Recover(s, es, now, timeout); var stale := StaleKeys(s.meta, now, timeout);
      && r.0.meta == s.meta - stale
      && r.0.processing == Without(s.processing, stale)
      && RequeuedInFront(r.0.pending, s.pending, stale)
      && r.1 == |stale * (set x | x in s.processing)|
  {
    RecoverMeta(s, es, now, timeout);
    RecoverProcessing(s, es, now, timeout);
    RecoverPending(s, es, now, timeout);
    RecoverTally(s, es, now, timeout);
    StaleOfListing(es, s.meta, now, timeout);
    assert StaleOf(es, now, timeout) == StaleKeys(s.meta, now, timeout);
  }

  /** The janitor never counts more recoveries than there are stale entries, and on a
      consistent store it counts every one of them. */
  lemma RecoverCount(s: Store, es: seq<(Task, real)>, now: real, timeout: real)
    requires DistinctKeys(es) && AgreesWith(es, s.meta)
    ensures Recover(s, es, now, timeout).1 <= |StaleOf(es, now, timeout)|
    ensures Consistent(s) ==> Recover(s, es, now, timeout).1 == |StaleOf(es, now, timeout)|
  {
    RecoverTally(s, es, now, timeout);
    var stale := StaleOf(es, now, timeout);
    var inFlight := set x | x in s.processing;
    assert stale * inFlight <= stale;
    if Consistent(s) {
      StaleOfListing(es, s.meta, now, timeout);
      assert stale * inFlight == stale;
    }
  }

  /** A janitor pass keeps the queue invariant. */
  lemma RecoverConsistent(s: Store, es: seq<(Task, real)>, now: real, timeout: real)
    requires DistinctKeys(es) && Consistent(s)
    ensures Consistent(Recover(s, es, now, timeout).0)
  {
    RecoverMeta(s, es, now, timeout);
    RecoverProcessing(s, es, now, timeout);
    var r := Recover(s, es, now, timeout).0;
    var stale := StaleOf(es, now, timeout);
    forall t ensures t in r.processing <==> t in r.meta {
      WithoutMembers(s.processing, stale, t);
    }
  }

  /** The age comparison is strict: an entry exactly `timeout` old (or younger) keeps its claim
      time and all its in-flight copies. */
  lemma RecoverSparesFresh(s: Store, es: seq<(Task, real)>, now: real, timeout: real, t: Task)
    requires DistinctKeys(es) && AgreesWith(es, s.meta)
    requires t in s.meta && now - s.meta[t] <= timeout
    ensures var r := Recover(s, es, now, timeout).0;
      t in r.meta && r.meta[t] == s.meta[t] && multiset(r.processing)[t] == multiset(s.processing)[t]
  {
    RecoverMeta(s, es, now, timeout);
    RecoverProcessing(s, es, now, timeout);
    StaleOfListing(es, s.meta, now, timeout);
    WithoutCount(s.processing, StaleOf(es, now, timeout), t);
  }

  /** `complete_task` is idempotent: completing the same task again changes nothing. */
  lemma CompleteIdempotent(s: Store, t: Task)
    ensures Completed(Completed(s, t), t) == Completed(s, t)
  {
    WithoutTwice(s.processing, {t}, {t});
    assert {t} + {t} == {t};
  }

  /** `complete_task` keeps the order of the other in-flight tasks: when processing is
      `a + b` and `t` is not in `a`, the tasks of `a` stay in front, in order, and the rest
      is `b` without its copies of `t`. */
  lemma CompleteKeepsOrder(s: Store, t: Task, a: seq<Task>, b: seq<Task>)
    requires s.processing == a + b
    requires forall i :: 0 <= i < |a| ==> a[i] != t
    ensures Completed(s, t).processing == a + Without(b, {t})
  {
    WithoutConcat(a, b, {t});
    WithoutAbsent(a, {t});
  }

  /** A second claim of a task that is already in flight adds a second in-flight copy but
      still leaves a single claim time for it: the newer one. */
  lemma DuplicateClaim(s: Store, now: real)
    requires s.pending != [] && s.pending[|s.pending| - 1] in s.meta
    ensures var r := Popped(s, now); var t := s.pending[|s.pending| - 1];
      && r.1 == Some(t)
      && r.0.meta[t] == now
      && |r.0.meta| == |s.meta|
      && multiset(r.0.processing)[t] == multiset(s.processing)[t] + 1
  {
    var t := s.pending[|s.pending| - 1];
    assert s.meta[t := now].Keys == s.meta.Keys;
  }

  /** `push_task` for each task of `ts` in order. */
  function PushAll(s: Store, ts: seq<Task>): (r: Store)
  {
    if ts == [] then s else Pushed(PushAll(s, ts[..|ts| - 1]), ts[|ts| - 1])
  }

  /** Pushing puts the tasks in front of pending, newest first, and touches nothing else. */
  lemma {:induction false} PushAllEffect(s: Store, ts: seq<Task>)
    ensures PushAll(s, ts) == s.(pending := Reverse(ts) + s.pending)
  {
    if ts != [] {
      PushAllEffect(s, ts[..|ts| - 1]);
    }
  }

  /** `n` calls of `pop_task` in a row: the store they leave and the tasks they returned. */
  function Drain(s: Store, now: real, n: nat): (r: (Store, seq<Task>))
    decreases n
  {
    if n == 0 then (s, [])
    else
      var p := Popped(s, now);
      var rest := Drain(p.0, now, n - 1);
      (rest.0, (if p.1.Some? then [p.1.value] else []) + rest.1)
  }

  /** Claims take pending from its tail: the oldest push comes out first. */
  lemma {:induction false} DrainOrder(s: Store, now: real)
    ensures Drain(s, now, |s.pending|).1 == Reverse(s.pending)
    decreases |s.pending|
  {
    if s.pending != [] {
      var p := Popped(s, now);
      DrainOrder(p.0, now);
    }
  }

  /** FIFO: after pushing `ts`, as many claims as there are pending tasks return first
      the tasks that were pending already, oldest first, and then `ts` in push order. */
  lemma Fifo(s: Store, ts: seq<Task>, now: real)
    ensures Drain(PushAll(s, ts), now, |s.pending| + |ts|).1 == Reverse(s.pending) + ts
  {
    PushAllEffect(s, ts);
    var pushed := PushAll(s, ts);
    DrainOrder(pushed, now);
    ReverseConcat(Reverse(ts), s.pending);
    ReverseReverse(ts);
  }

  /** The operations of `QueueManager`, as its callers invoke them. */
  datatype Call = PushCall(task: Task) | PopCall | CompleteCall(task: Task) | JanitorCall | ClearCall

  /** One `push_task` call per task of `ts`, in order. */
  function PushCalls(ts: seq<Task>): (r: seq<Call>)
    ensures |r| == |ts|
    ensures forall i :: 0 <= i < |ts| ==> r[i] == PushCall(ts[i])
  {
    if ts == [] then [] else PushCalls(ts[..|ts| - 1]) + [PushCall(ts[|ts| - 1])]
  }

  /** `QueueManager`: a connection to the three keys. `calls` records, for the proofs about
      its clients, every operation invoked on it in order. */
  class QueueManager {
    var pending: seq<Task>
    var processing: seq<Task>
    var meta: map<Task, real>
    ghost var calls: seq<Call>

    function State(): (r: Store)
      reads this
    {
      Store(pending, processing, meta)
    }

    /** Connecting does not change what the keys already hold. */
    constructor (existing: Store)
      ensures State() == existing && calls == []
    {
      pending, processing, meta := existing.pending, existing.processing, existing.meta;
      calls := [];
    }

    method PushTask(t: Task)
      modifies this
      ensures State() == Pushed(old(State()), t)
      ensures calls == old(calls) + [PushCall(t)]
    {
      pending := [t] + pending;
      calls := calls + [PushCall(t)];
    }

    /** Claims the oldest pending task at time `now`, or returns `None` when pending is empty. */
    method PopTask(now: real) returns (t: Option<Task>)
      modifies this
      ensures (State(), t) == Popped(old(State()), now)
      ensures calls == old(calls) + [PopCall]
    {
      calls := calls + [PopCall];
      if pending == [] {
        t := None;
      } else {
        var task := pending[|pending| - 1];
        pending := pending[..|pending| - 1];
        processing := [task] + processing;
        meta := meta[task := now];
        t := Some(task);
      }
    }

    method CompleteTask(t: Task)
      modifies this
      ensures State() == Completed(old(State()), t)
      ensures calls == old(calls) + [CompleteCall(t)]
    {
      processing := Without(processing, {t});
      meta := meta - {t};
      calls := calls + [CompleteCall(t)];
    }

    /** Re-queues every task claimed more than `timeout` seconds before `now` and returns
        how many of them still had an in-flight copy. The snapshot of `meta` is walked in
        an unspecified order, so only the set of re-queued tasks is fixed. */
    method Janitor(now: real, timeout: real) returns (recovered: nat)
      modifies this
      ensures var stale := StaleKeys(old(meta), now, timeout);
        && meta == old(meta) - stale
        && processing == Without(old(processing), stale)
        && RequeuedInFront(pending, old(pending), stale)
        && recovered == |stale * (set x | x in old(processing))|
      ensures calls == old(calls) + [JanitorCall]
    {
      var snapshot := meta;
      ghost var done;
      recovered, done := RecoverSnapshot(snapshot, now, timeout);
      calls := calls + [JanitorCall];
      RecoverListing(old(State()), done, now, timeout);
    }

    /** The janitor's loop over the `HGETALL` snapshot of `meta`, in some order; `done`
        lists the entries in the order they were handled. */
    method RecoverSnapshot(snapshot: map<Task, real>, now: real, timeout: real)
      returns (recovered: nat, ghost done: seq<(Task, real)>)
      requires snapshot == meta
      modifies this
      ensures DistinctKeys(done) && AgreesWith(done, snapshot) && KeysOf(done) == snapshot.Keys
      ensures (State(), recovered) == Recover(old(State()), done, now, timeout)
      ensures calls == old(calls)
    {
      var keys := snapshot.Keys;
      done := [];
      recovered := 0;
      while keys != {}
        invariant keys <= snapshot.Keys
        invariant KeysOf(done) == snapshot.Keys - keys
        invariant DistinctKeys(done) && AgreesWith(done, snapshot)
        invariant (State(), recovered) == Recover(old(State()), done, now, timeout)
        invariant calls == old(calls)
        decreases keys
      {
        var t :| t in keys;
        var start := snapshot[t];
        var counted := RecoverOne(t, start, now, timeout);
        RecoverAppend(old(State()), done, (t, start), now, timeout);
        recovered := recovered + counted;
        ListingExtend(done, snapshot, keys, t);
        done := done + [(t, start)];
        keys := keys - {t};
      }
    }

    /** One entry of the janitor's loop: the age comparison, and the transaction when it is
        stale; `counted` is 1 when that transaction recovered an in-flight copy. */
    method RecoverOne(t: Task, start: real, now: real, timeout: real) returns (counted: nat)
      modifies this
      ensures (State(), counted) == RecoverEntry(old(State()), t, start, now, timeout)
      ensures calls == old(calls)
    {
      counted := 0;
      if now - start > timeout {
        var removed := RequeueStale(t);
        if removed > 0 {
          counted := 1;
        }
      }
    }

    /** The janitor's transaction for one stale task: `LREM processing 0 t`, `HDEL meta t`,
        `LPUSH pending t`; returns `LREM`'s reply, the number of in-flight copies removed. */
    method RequeueStale(t: Task) returns (removed: nat)
      modifies this
      ensures removed == multiset(old(processing))[t]
      ensures State() == Store([t] + old(pending), Without(old(processing), {t}), old(meta) - {t})
      ensures calls == old(calls)
    {
      removed := multiset(processing)[t];
      processing := Without(processing, {t});
      meta := meta - {t};
      pending := [t] + pending;
    }

    method ClearQueues()
      modifies this
      ensures State() == Cleared()
      ensures calls == old(calls) + [ClearCall]
    {
      pending, processing, meta := [], [], map[];
      calls := calls + [ClearCall];
    }
  }
}
