/** The task pipeline of `worker.py`: posting a square to the provider, polling for the
    result, flattening the returned items, and then either splitting the square into four
    new tasks or saving every item; the task is completed on the queue unless one of
    these steps raised. The HTTP exchanges are inputs: the task id the post returned, and
    the provider's reply to each poll attempt. */
module Worker {
  import opened Wrappers
  import opened Lists
  import opened Tasks
  import opened Queue
  import Geo

  /** A square returning at least this many items is split rather than saved. */
  const SplitThreshold: nat := 100
  /** `max_retries` of `get_task_result`. */
  const MaxRetries: nat := 20
  /** The provider's status code for success, both for the request and for the task. */
  const StatusOk: int := 20000
  /** The provider's task status code for "task in progress". */
  const StatusInProgress: int := 40602

  // ---------------------------------------------------------------------------------
  // Provider replies

  /** The `address_info` of an item: missing, JSON `null`, or an object whose `city` may be
      missing. */
  datatype AddressInfo = NoAddressInfo | NullAddressInfo | AddressInfo(city: Option<string>)

  /** One entry of a result object's `items`. A missing key or JSON `null` is `None`. */
  datatype Item = Item(
    placeId: Option<string>,
    title: Option<string>,
    address: Option<string>,
    category: Option<string>,
    url: Option<string>,
    addressInfo: AddressInfo)

  /** The `items` key of a result object: missing, JSON `null`, or a list. */
  datatype ItemsField = Absent | Null | Listed(items: seq<Item>)

  datatype ResultObject = ResultObject(items: ItemsField)

  /** What one poll attempt sees. `Raised` stands for every exception inside the attempt's
      `try`: a network error, an undecodable body, or a reply without `tasks[0]`.
      Otherwise the reply carries the outer `status_code`, `tasks[0].status_code` and
      `tasks[0].result` (`None` for JSON `null`). */
  datatype PollResponse =
    | Raised
    | Reply(status: int, taskStatus: int, result: Option<seq<ResultObject>>)

  // ---------------------------------------------------------------------------------
  // get_task_result

  /** The verdict on one attempt: stop with a value, or go on to the next attempt. */
  datatype Attempt = Finished(result: Option<seq<ResultObject>>) | Retry

  function Classify(resp: PollResponse): (a: Attempt)
    ensures a == Retry <==> resp.Raised? || (resp.status == StatusOk && resp.taskStatus == StatusInProgress)
    ensures a.Finished? && a.result.Some? ==>
      resp.Reply? && resp.status == StatusOk && resp.taskStatus == StatusOk && resp.result == a.result
    ensures resp.Reply? && resp.status == StatusOk && resp.taskStatus == StatusOk ==> a == Finished(resp.result)
  {
    match resp
    case Raised => Retry
    case Reply(status, taskStatus, result) =>
      if status != StatusOk then Finished(None)
      else if taskStatus == StatusOk then Finished(result)
      else if taskStatus == StatusInProgress then Retry
      else Finished(None)
  }

  /** The poll loop from attempt `k` on, where attempt `i` sees `respond(i)`: the value
      returned and the number of attempts made by then. */
  function PollFrom(respond: nat -> PollResponse, k: nat): (r: (Option<seq<ResultObject>>, nat))
    ensures k < MaxRetries ==> k < r.1 <= MaxRetries
    decreases MaxRetries - k
  {
    if k >= MaxRetries then (None, k)
    else
      match Classify(respond(k))
      case Finished(result) => (result, k + 1)
      case Retry => PollFrom(respond, k + 1)
  }

  /** The outcome of polling, stated attempt by attempt: between 1 and 20 attempts, all but
      the last of them retried, and the value is the last attempt's verdict, or `None` after
      20 retries. In particular a result is returned only on a 20000/20000 reply. */
  lemma PollOutcome(respond: nat -> PollResponse)
    ensures var (result, n) := PollFrom(respond, 0);
      && 1 <= n <= MaxRetries
      && (forall i :: 0 <= i < n - 1 ==> Classify(respond(i)) == Retry)
      && (Classify(respond(n - 1)).Finished? ==> result == Classify(respond(n - 1)).result)
      && (Classify(respond(n - 1)) == Retry ==> n == MaxRetries && result == None)
      && (result.Some? ==>
            var last := respond(n - 1);
            last.Reply? && last.status == StatusOk && last.taskStatus == StatusOk && last.result == result)
  {
    PollOutcomeFrom(respond, 0);
  }

  lemma {:induction false} PollOutcomeFrom(respond: nat -> PollResponse, k: nat)
    requires k < MaxRetries
    ensures var (result, n) := PollFrom(respond, k);
      && k < n <= MaxRetries
      && (forall i :: k <= i < n - 1 ==> Classify(respond(i)) == Retry)
      && (Classify(respond(n - 1)).Finished? ==> result == Classify(respond(n - 1)).result)
      && (Classify(respond(n - 1)) == Retry ==> n == MaxRetries && result == None)
    decreases MaxRetries - k
  {
    if Classify(respond(k)) == Retry && k + 1 < MaxRetries {
      PollOutcomeFrom(respond, k + 1);
    }
  }

  /** Only the first 20 replies matter: two providers that agree on them give the same
      outcome. */
  lemma {:induction false} PollSeesTwenty(f: nat -> PollResponse, g: nat -> PollResponse, k: nat)
    requires forall i :: k <= i < MaxRetries ==> f(i) == g(i)
    ensures PollFrom(f, k) == PollFrom(g, k)
    decreases MaxRetries - k
  {
    if k < MaxRetries {
      PollSeesTwenty(f, g, k + 1);
    }
  }

  /** `get_task_result`: at most `MaxRetries` attempts; `attempts` is how many were made. */
  method GetTaskResult(respond: nat -> PollResponse) returns (result: Option<seq<ResultObject>>, attempts: nat)
    ensures (result, attempts) == PollFrom(respond, 0)
  {
    var i := 0;
    while i < MaxRetries
      invariant 0 <= i <= MaxRetries
      invariant PollFrom(respond, i) == PollFrom(respond, 0)
    {
      var verdict := Classify(respond(i));
      if verdict.Finished? {
        return verdict.result, i + 1;
      }
      i := i + 1;
    }
    return None, i;
  }

  // ---------------------------------------------------------------------------------
  // The items loop of process_task

  /** The `items` lists of the result objects that have the key, concatenated in order;
      `None` when some object's `items` is `null`, on which `list.extend` raises. */
  function Flatten(rs: seq<ResultObject>): (r: Option<seq<Item>>)
    ensures r.Some? ==> forall i :: 0 <= i < |rs| ==> rs[i].items != Null
    ensures r.Some? ==> forall i :: 0 <= i < |rs| && rs[i].items.Listed? ==> |rs[i].items.items| <= |r.value|
  {
    if rs == [] then Some([])
    else
      match Flatten(rs[..|rs| - 1])
      case None => None
      case Some(items) =>
        match rs[|rs| - 1].items
        case Absent => Some(items)
        case Null => None
        case Listed(more) => Some(items + more)
  }

  /** What one result object contributes to the flattened list. */
  function Contribution(o: ResultObject): (r: seq<Item>)
  {
    if o.items.Listed? then o.items.items else []
  }

  /** The loop fails exactly when some result object has `items: null`. */
  lemma {:induction false} FlattenFails(rs: seq<ResultObject>)
    ensures Flatten(rs) == None <==> exists i :: 0 <= i < |rs| && rs[i].items == Null
  {
    if rs != [] {
      var init := rs[..|rs| - 1];
      FlattenFails(init);
      if Flatten(init) == None {
        var i :| 0 <= i < |init| && init[i].items == Null;
        assert rs[i] == init[i];
      } else {
        forall i | 0 <= i < |rs| - 1 ensures rs[i].items != Null {
          assert rs[i] == init[i];
        }
      }
    }
  }

  /** The flattened list of a concatenation is the concatenation of the flattened lists. */
  lemma {:induction false} FlattenConcat(a: seq<ResultObject>, b: seq<ResultObject>)
    ensures Flatten(a + b) ==
      if Flatten(a).Some? && Flatten(b).Some? then Some(Flatten(a).value + Flatten(b).value) else None
  {
    if b == [] {
      assert a + b == a;
      if Flatten(a).Some? {
        assert Flatten(a).value + [] == Flatten(a).value;
      }
    } else {
      var init := b[..|b| - 1];
      assert (a + b)[..|a + b| - 1] == a + init;
      FlattenConcat(a, init);
      if Flatten(a).Some? && Flatten(init).Some? && b[|b| - 1].items.Listed? {
        assert Flatten(a).value + Flatten(init).value + b[|b| - 1].items.items
            == Flatten(a).value + (Flatten(init).value + b[|b| - 1].items.items);
      }
    }
  }

  /** When the loop succeeds, every object contributes its list, in order. */
  lemma {:induction false} FlattenContents(rs: seq<ResultObject>)
    requires Flatten(rs).Some?
    ensures Flatten(rs).value == ContributionsFrom(rs)
  {
    if rs != [] {
      FlattenContents(rs[..|rs| - 1]);
    }
  }

  function ContributionsFrom(rs: seq<ResultObject>): (r: seq<Item>)
  {
    if rs == [] then [] else ContributionsFrom(rs[..|rs| - 1]) + Contribution(rs[|rs| - 1])
  }

  /** The `for res_obj in results_list` loop that builds `items`. */
  method CollectItems(rs: seq<ResultObject>) returns (items: Option<seq<Item>>)
    ensures items == Flatten(rs)
  {
    var acc: seq<Item> := [];
    var i := 0;
    while i < |rs|
      invariant 0 <= i <= |rs|
      invariant Flatten(rs[..i]) == Some(acc)
    {
      assert rs[..i + 1][..i] == rs[..i];
      match rs[i].items {
        case Absent =>
        case Null =>
          FlattenConcat(rs[..i + 1], rs[i + 1..]);
          assert rs[..i + 1] + rs[i + 1..] == rs;
          return None;
        case Listed(more) =>
          acc := acc + more;
      }
      i := i + 1;
    }
    assert rs[..i] == rs;
    return Some(acc);
  }

  // ---------------------------------------------------------------------------------
  // save_business

  type PlaceId = string

  /** A row of the `businesses` table, keyed by `place_id`. */
  datatype Business = Business(
    placeId: PlaceId,
    name: Option<string>,
    city: Option<string>,
    fullAddress: Option<string>,
    category: Option<string>,
    website: Option<string>,
    mapsUrl: Option<string>,
    keywordsFound: seq<string>)

  /** The statement for an item can run at all: it has a `place_id` (the column is
      `NOT NULL`) and an `address_info` that is not `null` (`.get` on `None` raises). */
  predicate Savable(item: Item)
  {
    item.placeId.Some? && !item.addressInfo.NullAddressInfo?
  }

  /** Every one of `items` can be saved. */
  predicate AllSavable(items: seq<Item>)
  {
    forall i :: 0 <= i < |items| ==> Savable(items[i])
  }

  function CityOf(info: AddressInfo): (r: Option<string>)
  {
    if info.AddressInfo? then info.city else None
  }

  /** The keywords a row already has for `id`, or none when there is no row. */
  function KeywordsBefore(rows: map<PlaceId, Business>, id: PlaceId): (r: seq<string>)
  {
    if id in rows then rows[id].keywordsFound else []
  }

  /** `INSERT ... ON CONFLICT (place_id) DO UPDATE`, or `None` when the statement raises. */
  function Upsert(rows: map<PlaceId, Business>, item: Item, keyword: string): (r: Option<map<PlaceId, Business>>)
    ensures r.Some? <==> Savable(item)
  {
    if !Savable(item) then None
    else
      var id := item.placeId.value;
      var keywords := if id in rows then rows[id].keywordsFound + [keyword] else [keyword];
      Some(rows[id := Business(id, item.title, CityOf(item.addressInfo), item.address,
                               item.category, item.url, item.url, keywords)])
  }

  /** The upsert rule: a new place gets a row whose only keyword is `keyword`; an existing
      one has every column overwritten from the item, both `website` and `maps_url` from its
      `url`, and `keyword` appended to its keywords, duplicates included. No other row
      changes. */
  lemma UpsertEffect(rows: map<PlaceId, Business>, item: Item, keyword: string)
    requires Savable(item)
    ensures var r := Upsert(rows, item, keyword).value; var id := item.placeId.value;
      && r.Keys == rows.Keys + {id}
      && (forall other :: other in rows && other != id ==> r[other] == rows[other])
      && r[id].placeId == id
      && r[id].name == item.title
      && r[id].city == CityOf(item.addressInfo)
      && r[id].fullAddress == item.address
      && r[id].category == item.category
      && r[id].website == item.url && r[id].mapsUrl == item.url
      && r[id].keywordsFound == KeywordsBefore(rows, id) + [keyword]
  {
  }

  /** The saves of `items`, one after another, each tagged with `keyword`; a save that
      raises leaves the table as it was. */
  function UpsertAll(rows: map<PlaceId, Business>, items: seq<Item>, keyword: string): (r: map<PlaceId, Business>)
    ensures rows.Keys <= r.Keys
    ensures (forall i :: 0 <= i < |items| ==> !Savable(items[i])) ==> r == rows
  {
    if items == [] then rows
    else
      var before := UpsertAll(rows, items[..|items| - 1], keyword);
      var last := items[|items| - 1];
      if Savable(last) then Upsert(before, last, keyword).value else before
  }

  /** How many of `items` save a row for `id`. */
  function Sightings(items: seq<Item>, id: PlaceId): (r: nat)
  {
    if items == [] then 0
    else
      var last := items[|items| - 1];
      Sightings(items[..|items| - 1], id) + if Savable(last) && last.placeId.value == id then 1 else 0
  }

  /** `n` copies of `x`. */
  function Repeat(x: string, n: nat): (r: seq<string>)
    ensures |r| == n && forall i :: 0 <= i < n ==> r[i] == x
  {
    if n == 0 then [] else Repeat(x, n - 1) + [x]
  }

  /** No deduplication: after the saves, a place's keywords are what it had, followed by
      one copy of `keyword` per item that saved it. A place no item saved keeps its row,
      or stays absent. */
  lemma {:induction false} UpsertAllKeywords(rows: map<PlaceId, Business>, items: seq<Item>, keyword: string, id: PlaceId)
    ensures var r := UpsertAll(rows, items, keyword);
      && (id in r <==> id in rows || Sightings(items, id) > 0)
      && KeywordsBefore(r, id) == KeywordsBefore(rows, id) + Repeat(keyword, Sightings(items, id))
      && (Sightings(items, id) == 0 && id in rows ==> r[id] == rows[id])
  {
    if items != [] {
      var init := items[..|items| - 1];
      UpsertAllKeywords(rows, init, keyword, id);
      var before := UpsertAll(rows, init, keyword);
      var last := items[|items| - 1];
      if Savable(last) {
        UpsertEffect(before, last, keyword);
      }
      assert KeywordsBefore(rows, id) + Repeat(keyword, Sightings(init, id)) + [keyword]
          == KeywordsBefore(rows, id) + (Repeat(keyword, Sightings(init, id)) + [keyword]);
    }
  }

  /** The table's rows after the saves: the places it had and those of the savable items. */
  lemma {:induction false} UpsertAllKeys(rows: map<PlaceId, Business>, items: seq<Item>, keyword: string)
    ensures UpsertAll(rows, items, keyword).Keys ==
      rows.Keys + set i | 0 <= i < |items| && Savable(items[i]) :: items[i].placeId.value
  {
    if items != [] {
      var init := items[..|items| - 1];
      UpsertAllKeys(rows, init, keyword);
      var last := |items| - 1;
      if Savable(items[last]) {
        UpsertEffect(UpsertAll(rows, init, keyword), items[last], keyword);
      }
      assert (set i | 0 <= i < |items| && Savable(items[i]) :: items[i].placeId.value)
          == (set i | 0 <= i < |init| && Savable(init[i]) :: init[i].placeId.value)
           + (if Savable(items[last]) then {items[last].placeId.value} else {});
    }
  }

  /** Saving one more item of a list extends both the table and the record of saves by
      that item's save. */
  lemma UpsertAllStep(rows: map<PlaceId, Business>, items: seq<Item>, i: nat, keyword: string)
    requires i < |items|
    ensures UpsertAll(rows, items[..i + 1], keyword) ==
      var before := UpsertAll(rows, items[..i], keyword);
      if Savable(items[i]) then Upsert(before, items[i], keyword).value else before
    ensures SavesOf(items[..i + 1], keyword) == SavesOf(items[..i], keyword) + [Save(items[i], keyword)]
    ensures AllSavable(items[..i + 1]) <==> AllSavable(items[..i]) && Savable(items[i])
  {
    assert items[..i + 1][..i] == items[..i];
    assert items[..i + 1][i] == items[i];
  }

  /** One `save_business` call, as the worker records it. */
  datatype Save = Save(item: Item, keyword: string)

  function SavesOf(items: seq<Item>, keyword: string): (r: seq<Save>)
    ensures |r| == |items|
    ensures forall i :: 0 <= i < |items| ==> r[i] == Save(items[i], keyword)
  {
    if items == [] then [] else SavesOf(items[..|items| - 1], keyword) + [Save(items[|items| - 1], keyword)]
  }

  /** The `businesses` table. `saves` records, for the proofs about the worker, every
      `save_business` call in order. */
  class BusinessTable {
    var rows: map<PlaceId, Business>
    ghost var saves: seq<Save>

    constructor (existing: map<PlaceId, Business>)
      ensures rows == existing && saves == []
    {
      rows := existing;
      saves := [];
    }

    /** `save_business(item, keyword)`: one transaction; `saved` is false when it raised. */
    method SaveBusiness(item: Item, keyword: string) returns (saved: bool)
      modifies this
      ensures saved == Savable(item)
      ensures rows == if saved then Upsert(old(rows), item, keyword).value else old(rows)
      ensures saves == old(saves) + [Save(item, keyword)]
    {
      saves := saves + [Save(item, keyword)];
      var r := Upsert(rows, item, keyword);
      if r.Some? {
        rows := r.value;
        saved := true;
      } else {
        saved := false;
      }
    }
  }

  // ---------------------------------------------------------------------------------
  // process_task

  /** The four tasks that replace a square with too many results. */
  function Children(task: Task, cosLat: real): (r: seq<Task>)
    requires cosLat != 0.0
    ensures |r| == 4
    ensures forall i :: 0 <= i < 4 ==> r[i].width == task.width / 2.0 && r[i].keyword == task.keyword
    ensures var q := Geo.SplitSquare(task.lat, task.lng, task.width, cosLat);
      forall i :: 0 <= i < 4 ==> r[i].lat == q[i].lat && r[i].lng == q[i].lng
  {
    var q := Geo.SplitSquare(task.lat, task.lng, task.width, cosLat);
    seq(4, i requires 0 <= i < 4 => Task(q[i].lat, q[i].lng, q[i].width, task.keyword))
  }

  /** The path `process_task` takes. Four of them leave on an exception, before
      `complete_task`: the zoom computation of `post_task`, which runs outside its `try`,
      raised; `items: null` in a result object; `split_square` divided by a zero cosine; or
      a save raised. */
  datatype Outcome =
    | PostRaised
    | PostFailed
    | PollFailed
    | Split(children: seq<Task>)
    | Saved(items: seq<Item>)
    | NoResults
    | NullItems
    | SplitRaised
    | SaveFailed(items: seq<Item>)

  /** `post_task` raises before its request: `math.log2` rejects the zoom ratio of the
      task's square. */
  predicate PostRaises(task: Task, cosLat: real)
  {
    Geo.ZoomLevel(Geo.CircumscribedRadius(task.width) as real, cosLat).DomainError?
  }

  /** That happens exactly for a square of positive width at a latitude whose cosine is not
      positive. */
  lemma PostRaisesWhen(task: Task, cosLat: real)
    ensures PostRaises(task, cosLat) <==> task.width > 0.0 && cosLat <= 0.0
  {
    Geo.CircumscribedRadiusPositive(task.width);
  }

  /** A post "fails" when it returned no task id, or an empty one (`not task_id`). */
  predicate PostSucceeded(posted: Option<string>)
  {
    posted.Some? && posted.value != ""
  }

  /** The branch-or-persist rule, from the post's task id and the poll's value. */
  function Decide(task: Task, posted: Option<string>, polled: Option<seq<ResultObject>>, cosLat: real): (r: Outcome)
    ensures r.Split? ==> |r.children| == 4
    ensures (r.Saved? || r.SaveFailed?) ==> 0 < |r.items| < SplitThreshold
  {
    if PostRaises(task, cosLat) then PostRaised
    else if !PostSucceeded(posted) then PostFailed
    else if polled.None? then PollFailed
    else
      match Flatten(polled.value)
      case None => NullItems
      case Some(items) => DecideItems(task, items, cosLat)
  }

  /** The rule once the items are collected: split, save or report no results. */
  function DecideItems(task: Task, items: seq<Item>, cosLat: real): (r: Outcome)
    ensures r.Split? ==> |r.children| == 4
    ensures (r.Saved? || r.SaveFailed?) ==> 0 < |r.items| < SplitThreshold && r.items == items
  {
    if |items| >= SplitThreshold then
      if cosLat == 0.0 then SplitRaised else Split(Children(task, cosLat))
    else if |items| > 0 then
      if AllSavable(items) then Saved(items) else SaveFailed(items)
    else NoResults
  }

  /** Whether the path reaches the final `complete_task`. */
  predicate Completes(o: Outcome)
  {
    !o.PostRaised? && !o.NullItems? && !o.SplitRaised? && !o.SaveFailed?
  }

  /** The queue operations a path invokes, in order. */
  function QueueCalls(task: Task, o: Outcome): (r: seq<Call>)
    ensures Completes(o) ==> |r| > 0
  {
    if !Completes(o) then []
    else if o.Split? then PushCalls(o.children) + [CompleteCall(task)]
    else [CompleteCall(task)]
  }

  /** The queue store a path leaves. */
  function QueueEffect(s: Store, task: Task, o: Outcome): (r: Store)
    ensures !o.Split? ==> r.pending == s.pending
  {
    if !Completes(o) then s
    else if o.Split? then Completed(PushAll(s, o.children), task)
    else Completed(s, task)
  }

  /** The items a path saves. */
  function SavedItems(o: Outcome): (r: seq<Item>)
    ensures r != [] ==> o.Saved? || o.SaveFailed?
  {
    match o
    case Saved(items) => items
    case SaveFailed(items) => items
    case _ => []
  }

  function CountCompletes(calls: seq<Call>): (r: nat)
  {
    if calls == [] then 0
    else CountCompletes(calls[..|calls| - 1]) + if calls[|calls| - 1].CompleteCall? then 1 else 0
  }

  lemma {:induction false} PushCallsComplete(ts: seq<Task>)
    ensures CountCompletes(PushCalls(ts)) == 0
  {
    if ts != [] {
      PushCallsComplete(ts[..|ts| - 1]);
    }
  }

  /** Every path that does not raise completes the task exactly once, as its last queue
      operation, and invokes nothing else but pushes; a path that raises invokes nothing. */
  lemma CompletesOnce(task: Task, o: Outcome)
    ensures var calls := QueueCalls(task, o);
      && CountCompletes(calls) == (if Completes(o) then 1 else 0)
      && (Completes(o) ==> calls[|calls| - 1] == CompleteCall(task))
      && (forall i :: 0 <= i < |calls| - 1 ==> calls[i].PushCall?)
  {
    if o.Split? {
      PushCallsComplete(o.children);
      var calls := QueueCalls(task, o);
      assert calls[..|calls| - 1] == PushCalls(o.children);
    } else if Completes(o) {
      assert QueueCalls(task, o)[..0] == [];
    }
  }

  /** The rule, branch by branch, from the inputs. */
  lemma DecideCases(task: Task, posted: Option<string>, polled: Option<seq<ResultObject>>, cosLat: real)
    ensures var o := Decide(task, posted, polled, cosLat);
      var proceeds := !PostRaises(task, cosLat) && PostSucceeded(posted) && polled.Some?;
      && (o == PostRaised <==> PostRaises(task, cosLat))
      && (o == PostFailed <==> !PostRaises(task, cosLat) && !PostSucceeded(posted))
      && (o == PollFailed <==> !PostRaises(task, cosLat) && PostSucceeded(posted) && polled.None?)
      && (o == NullItems <==>
            proceeds && exists i :: 0 <= i < |polled.value| && polled.value[i].items == Null)
      && ((o.Split? || o == SplitRaised) <==>
            proceeds && Flatten(polled.value).Some? && |Flatten(polled.value).value| >= SplitThreshold)
      && (o == SplitRaised ==> cosLat == 0.0)
      && (o.Split? ==> o.children == Children(task, cosLat))
      && (o == NoResults <==> proceeds && Flatten(polled.value) == Some([]))
      && ((o.Saved? || o.SaveFailed?) <==>
            proceeds && Flatten(polled.value).Some? && 0 < |Flatten(polled.value).value| < SplitThreshold)
      && ((o.Saved? || o.SaveFailed?) ==> SavedItems(o) == Flatten(polled.value).value)
  {
    if !PostRaises(task, cosLat) && PostSucceeded(posted) && polled.Some? {
      FlattenFails(polled.value);
    }
  }

  /** A split pushes four quarter-offset halves of the square under the same keyword, and
      saves nothing; only a path that saves touches the table. */
  lemma SplitShape(task: Task, posted: Option<string>, polled: Option<seq<ResultObject>>, cosLat: real)
    ensures var o := Decide(task, posted, polled, cosLat);
      && (o.Split? ==>
            && |o.children| == 4 && SavedItems(o) == [] && cosLat != 0.0
            && forall i :: 0 <= i < 4 ==>
                 o.children[i].width == task.width / 2.0 && o.children[i].keyword == task.keyword)
      && (!o.Saved? && !o.SaveFailed? ==> SavedItems(o) == [])
  {
  }

  /** A save path saves every item when all of them can be saved, and raises when one
      cannot. */
  lemma SaveShape(task: Task, posted: Option<string>, polled: Option<seq<ResultObject>>, cosLat: real)
    ensures var o := Decide(task, posted, polled, cosLat);
      && (o.Saved? ==> forall i :: 0 <= i < |o.items| ==> Savable(o.items[i]))
      && (o.SaveFailed? ==> exists i :: 0 <= i < |o.items| && !Savable(o.items[i]))
  {
  }

  /** The queue a path leaves: a completing path leaves the task neither in flight nor
      claimed, and keeps every other in-flight copy and claim time; a split also puts the
      four children in front of pending, newest first; a path that raises changes nothing.
      Only a split changes pending. */
  lemma QueueEffectShape(s: Store, task: Task, o: Outcome)
    ensures var r := QueueEffect(s, task, o);
      && (Completes(o) ==> task !in r.processing && task !in r.meta)
      && (Completes(o) ==> forall y :: y != task ==> multiset(r.processing)[y] == multiset(s.processing)[y])
      && (Completes(o) ==> forall y :: y in s.meta && y != task ==> y in r.meta && r.meta[y] == s.meta[y])
      && (!Completes(o) ==> r == s)
      && r.pending == (if o.Split? then Reverse(o.children) + s.pending else s.pending)
  {
    if o.Split? {
      PushAllEffect(s, o.children);
    }
  }

  /** `process_task`: `posted` is what `post_task` returned when it got as far as the
      request, `respond` the provider's reply to each poll attempt, and `cosLat` the cosine
      of the task's latitude. */
  method ProcessTask(q: QueueManager, db: BusinessTable, task: Task, posted: Option<string>,
                     respond: nat -> PollResponse, cosLat: real) returns (outcome: Outcome)
    modifies q, db
    ensures outcome == Decide(task, posted, PollFrom(respond, 0).0, cosLat)
    ensures q.calls == old(q.calls) + QueueCalls(task, outcome)
    ensures q.State() == QueueEffect(old(q.State()), task, outcome)
    ensures db.saves == old(db.saves) + SavesOf(SavedItems(outcome), task.keyword)
    ensures db.rows == UpsertAll(old(db.rows), SavedItems(outcome), task.keyword)
  {
    var radius := Geo.CircumscribedRadius(task.width);
    var zoom := Geo.ZoomLevel(radius as real, cosLat);
    if zoom.DomainError? {
      return PostRaised;
    }
    if !PostSucceeded(posted) {
      q.CompleteTask(task);
      return PostFailed;
    }
    var polled, _ := GetTaskResult(respond);
    if polled.None? {
      q.CompleteTask(task);
      return PollFailed;
    }
    var collected := CollectItems(polled.value);
    if collected.None? {
      return NullItems;
    }
    outcome := HandleItems(q, db, task, collected.value, cosLat);
  }

  /** The tail of `process_task` once the items are collected. */
  method HandleItems(q: QueueManager, db: BusinessTable, task: Task, items: seq<Item>, cosLat: real)
    returns (outcome: Outcome)
    modifies q, db
    ensures outcome == DecideItems(task, items, cosLat)
    ensures q.calls == old(q.calls) + QueueCalls(task, outcome)
    ensures q.State() == QueueEffect(old(q.State()), task, outcome)
    ensures db.saves == old(db.saves) + SavesOf(SavedItems(outcome), task.keyword)
    ensures db.rows == UpsertAll(old(db.rows), SavedItems(outcome), task.keyword)
  {
    if |items| >= SplitThreshold {
      if cosLat == 0.0 {
        return SplitRaised;
      }
      var children := Children(task, cosLat);
      PushChildren(q, children);
      q.CompleteTask(task);
      return Split(children);
    }
    var allSaved := SaveAll(db, items, task.keyword);
    if |items| > 0 && !allSaved {
      return SaveFailed(items);
    }
    q.CompleteTask(task);
    outcome := if |items| > 0 then Saved(items) else NoResults;
  }

  /** The `for ... in sub_squares` loop: one `push_task` per child, in order. */
  method PushChildren(q: QueueManager, children: seq<Task>)
    modifies q
    ensures q.calls == old(q.calls) + PushCalls(children)
    ensures q.State() == PushAll(old(q.State()), children)
  {
    var i := 0;
    while i < |children|
      invariant 0 <= i <= |children|
      invariant q.calls == old(q.calls) + PushCalls(children[..i])
      invariant q.State() == PushAll(old(q.State()), children[..i])
    {
      assert children[..i + 1][..i] == children[..i];
      q.PushTask(children[i]);
      i := i + 1;
    }
    assert children[..i] == children;
  }

  /** The gathered `save_business` calls, one per item in order; `allSaved` is false when
      one of them raised (the others still run). */
  method SaveAll(db: BusinessTable, items: seq<Item>, keyword: string) returns (allSaved: bool)
    modifies db
    ensures allSaved <==> AllSavable(items)
    ensures db.rows == UpsertAll(old(db.rows), items, keyword)
    ensures db.saves == old(db.saves) + SavesOf(items, keyword)
  {
    allSaved := true;
    var i := 0;
    while i < |items|
      invariant 0 <= i <= |items|
      invariant allSaved <==> AllSavable(items[..i])
      invariant db.rows == UpsertAll(old(db.rows), items[..i], keyword)
      invariant db.saves == old(db.saves) + SavesOf(items[..i], keyword)
    {
      UpsertAllStep(old(db.rows), items, i, keyword);
      var saved := db.SaveBusiness(items[i], keyword);
      allSaved := allSaved && saved;
      i := i + 1;
    }
    assert items[..i] == items;
  }
}
