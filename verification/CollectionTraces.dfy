/**
 What a collection does with the list it is given: which items it reads, how they run one after
 the other, and which record each of them leaves in the ledger.
 */
module CollectionTraces {
  import opened Foundations
  import opened Json
  import opened Plans
  import opened Records
  import opened Engine

  // ---- Reading the list ---------------------------------------------------------------------------

  // The item an authored value stands for.
  predicate Stands(value: Json, item: Item) {
    value == Obj(map["id" := Str(item.id), "flow" := Str(item.flow), "input" := Obj(item.payload)])
  }

  // An item the step may run.
  predicate Runnable(e: Engine, step: Step, item: Item) {
    && IsItemId(item.id) && item.flow in step.Targets() && item.flow in e.plan.flows && e.plan.At(item.flow).callable
    && e.validate(item.flow, item.payload).None?
  }

  predicate DistinctIds(items: seq<Item>) {
    forall j, k | 0 <= j < k < |items| :: items[j].id != items[k].id
  }

  // The list stands for these items, in its order.
  predicate Reads(e: Engine, step: Step, raw: seq<Json>, items: seq<Item>) {
    && |items| <= |raw| && DistinctIds(items)
    && forall k | 0 <= k < |items| :: Stands(raw[k], items[k]) && Runnable(e, step, items[k])
  }

  function Ids(items: seq<Item>): set<string> {
    set k | 0 <= k < |items| :: items[k].id
  }

  lemma ItemRead(step: Step, value: Json, seen: set<string>, item: Item)
    ensures ReadItem(step, value, seen) == Some(item)
            <==> Stands(value, item) && IsItemId(item.id) && item.id !in seen && item.flow in step.Targets()
  {
    if ReadItem(step, value, seen) == Some(item) {
      assert value.fields == map["id" := Str(item.id), "flow" := Str(item.flow), "input" := Obj(item.payload)];
    }
  }

  lemma ReadsNext(e: Engine, step: Step, raw: seq<Json>, items: seq<Item>, item: Item)
    requires Reads(e, step, raw, items) && |items| < |raw|
    ensures Reads(e, step, raw, items + [item])
            <==> Stands(raw[|items|], item) && Runnable(e, step, item) && item.id !in Ids(items)
    ensures Ids(items + [item]) == Ids(items) + {item.id}
  {
    var more := items + [item];
    assert more[|items|] == item;
    assert forall k | 0 <= k < |items| :: more[k] == items[k];
    forall id ensures id in Ids(more) <==> id in Ids(items) || id == item.id {
      if id in Ids(items) {
        var k :| 0 <= k < |items| && items[k].id == id;
        assert more[k].id == id;
      }
    }
    if item.id !in Ids(items) {
      forall k | 0 <= k < |items| ensures items[k].id != item.id {
        assert items[k].id in Ids(items);
      }
    }
    if item.id in Ids(items) {
      var k :| 0 <= k < |items| && items[k].id == item.id;
      assert more[k].id == more[|items|].id;
    }
  }

  // What is checked stands in the list, item by item.
  lemma {:induction false} CheckedIsRead(e: Engine, step: Step, raw: seq<Json>, items: seq<Item>, w: World)
    requires Reads(e, step, raw, items)
    ensures var checked := CheckItems(e, step, raw, items, Ids(items), w).0;
            checked.Ok? ==> |checked.value| == |raw| && Reads(e, step, raw, checked.value)
    decreases |raw| - |items|
  {
    if |items| < |raw| && !e.expired(w.tick) {
      var read := ReadItem(step, raw[|items|], Ids(items));
      if read.Some? && CallableFlow(e.plan, read.value.flow).Some?
          && e.validate(read.value.flow, read.value.payload).None? {
        ItemRead(step, raw[|items|], Ids(items), read.value);
        ReadsNext(e, step, raw, items, read.value);
        CheckedIsRead(e, step, raw, items + [read.value], w.Next());
      }
    }
  }

  predicate InTime(e: Engine, w: World, n: nat) {
    forall t | w.tick <= t < w.tick + n :: !e.expired(t)
  }

  // A list of distinct runnable items passes the check before the deadline.
  lemma {:induction false} ReadIsChecked(e: Engine, step: Step, raw: seq<Json>, items: seq<Item>, k: nat, w: World)
    requires Reads(e, step, raw, items) && |items| == |raw| && k <= |items| && InTime(e, w, |raw| - k)
    ensures CheckItems(e, step, raw, items[..k], Ids(items[..k]), w).0 == Ok(items)
    decreases |raw| - k
  {
    if k == |items| {
      assert items[..k] == items;
    } else {
      var before := items[..k];
      assert before + [items[k]] == items[..k + 1];
      assert Reads(e, step, raw, before) && Reads(e, step, raw, before + [items[k]]);
      ReadsNext(e, step, raw, before, items[k]);
      ItemRead(step, raw[k], Ids(before), items[k]);
      assert InTime(e, w.Next(), |raw| - (k + 1));
      ReadIsChecked(e, step, raw, items, k + 1, w.Next());
    }
  }

  // Before the deadline, the check accepts a list exactly when it stands for distinct runnable items.
  lemma CheckAccepts(e: Engine, step: Step, raw: seq<Json>, w: World)
    requires InTime(e, w, |raw|)
    ensures var checked := CheckItems(e, step, raw, [], {}, w).0;
            && (checked.Ok? <==> exists items :: |items| == |raw| && Reads(e, step, raw, items))
            && (checked.Ok? ==> |checked.value| == |raw| && Reads(e, step, raw, checked.value))
  {
    assert Ids([]) == {};
    CheckedIsRead(e, step, raw, [], w);
    if items :| |items| == |raw| && Reads(e, step, raw, items) {
      assert items[..0] == [];
      ReadIsChecked(e, step, raw, items, 0, w);
    }
  }

  // ---- Running the items --------------------------------------------------------------------------

  // The finished items, each run in the world the one before it left; only the last may stop.
  ghost predicate RanInTurn(e: Engine, items: seq<Item>, dones: seq<ItemDone>, worlds: seq<World>, depth: int) {
    && |dones| <= |items| && |worlds| == |dones| + 1
    && forall k | 0 <= k < |dones| :: RanAt(e, items, dones, worlds, depth, k)
  }

  ghost predicate RanAt(e: Engine, items: seq<Item>, dones: seq<ItemDone>, worlds: seq<World>, depth: int, k: int)
    requires 0 <= k < |dones| <= |items| && |worlds| == |dones| + 1
  {
    && RunItem(e, e.plan.At(items[k].flow), items[k].payload, worlds[k], depth) == ItemRun(Ok(dones[k]), worlds[k + 1])
    && (k < |dones| - 1 ==> !dones[k].Stops())
  }

  predicate Stopped(dones: seq<ItemDone>) {
    dones != [] && dones[|dones| - 1].Stops()
  }

  // The entry of each item: what its run left, or skipped.
  function EntryOf(plan: Plan, items: seq<Item>, dones: seq<ItemDone>, k: nat): Entry
    requires k < |items|
  {
    if k < |dones| then Entry(items[k], dones[k].record, dones[k].retry)
    else Entry(items[k], SkippedFlow(plan.At(items[k].flow)), None)
  }

  predicate InReview(dones: seq<ItemDone>) {
    exists k | 0 <= k < |dones| :: dones[k].record.status == NeedsReview
  }

  // The batch after the items that finished.
  predicate Shows(plan: Plan, items: seq<Item>, dones: seq<ItemDone>, batch: Batch) {
    && |batch.entries| == |items|
    && (forall k | 0 <= k < |items| :: batch.entries[k] == EntryOf(plan, items, dones, k))
    && batch.status == (if Stopped(dones) then Failed else if InReview(dones) then NeedsReview else Completed)
    && batch.failure == if !Stopped(dones) then None else StopFailure(dones[|dones| - 1])
  }

  // A retry or input failure comes before the record's own error.
  function StopFailure(done: ItemDone): Option<Failure> {
    match done.failure
    case Some(failure) => Some(failure)
    case None => done.record.error
  }

  lemma ShowsNext(plan: Plan, items: seq<Item>, dones: seq<ItemDone>, batch: Batch, done: ItemDone)
    requires Shows(plan, items, dones, batch) && |dones| < |items| && !Stopped(dones)
    ensures Shows(plan, items, dones + [done], Entered(batch, |dones|, done))
  {
    var more := dones + [done];
    assert more[|dones|] == done && forall k | 0 <= k < |dones| :: more[k] == dones[k];
    if InReview(dones) {
      var k :| 0 <= k < |dones| && dones[k].record.status == NeedsReview;
      assert more[k].record.status == NeedsReview;
    }
    if done.record.status == NeedsReview {
      assert more[|dones|].record.status == NeedsReview;
    }
  }

  // The items in turn, ending with the last, with one that stops, or with an exception.
  ghost predicate RunsOut(e: Engine, items: seq<Item>, dones: seq<ItemDone>, worlds: seq<World>, depth: int,
                          run: (Result<Batch, Exn>, World)) {
    && RanInTurn(e, items, dones, worlds, depth)
    && match run.0
       case Ok(batch) =>
         && Shows(e.plan, items, dones, batch) && (|dones| == |items| || Stopped(dones))
         && run.1 == worlds[|dones|]
       case Err(exn) =>
         && |dones| < |items| && !Stopped(dones)
         && RunItem(e, e.plan.At(items[|dones|].flow), items[|dones|].payload, worlds[|dones|], depth)
            == ItemRun(Err(exn), run.1)
  }

  lemma RanNext(e: Engine, items: seq<Item>, dones: seq<ItemDone>, worlds: seq<World>, depth: int, done: ItemDone,
                w: World)
    requires RanInTurn(e, items, dones, worlds, depth) && |dones| < |items| && !Stopped(dones)
    requires RunItem(e, e.plan.At(items[|dones|].flow), items[|dones|].payload, worlds[|dones|], depth)
             == ItemRun(Ok(done), w)
    ensures RanInTurn(e, items, dones + [done], worlds + [w], depth)
  {
    forall k | 0 <= k < |dones + [done]| ensures RanAt(e, items, dones + [done], worlds + [w], depth, k) {
      if k < |dones| {
        assert RanAt(e, items, dones, worlds, depth, k);
      }
    }
  }

  lemma {:induction false} ItemsInTurn(e: Engine, items: seq<Item>, dones: seq<ItemDone>, worlds: seq<World>,
                                       batch: Batch, depth: int) returns (dones': seq<ItemDone>, worlds': seq<World>)
    requires RanInTurn(e, items, dones, worlds, depth) && Shows(e.plan, items, dones, batch) && !Stopped(dones)
    ensures RunsOut(e, items, dones', worlds', depth, RunItems(e, |dones|, batch, worlds[|dones|], depth))
    ensures worlds'[0] == worlds[0]
    decreases |items| - |dones|
  {
    dones', worlds' := dones, worlds;
    if |dones| < |items| {
      var item := items[|dones|];
      assert batch.entries[|dones|].item == item;
      var run := RunItem(e, e.plan.At(item.flow), item.payload, worlds[|dones|], depth);
      if run.outcome.Ok? {
        var done := run.outcome.value;
        ShowsNext(e.plan, items, dones, batch, done);
        RanNext(e, items, dones, worlds, depth, done, run.world);
        dones', worlds' := dones + [done], worlds + [run.world];
        if !done.Stops() {
          dones', worlds' := ItemsInTurn(e, items, dones', worlds', Entered(batch, |dones|, done), depth);
        }
      }
    }
  }

  // ---- The collection -------------------------------------------------------------------------------

  // The ledger is the result, unless an item stopped the collection.
  ghost predicate Recorded(plan: Plan, items: seq<Item>, dones: seq<ItemDone>, record: StepRecord) {
    exists batch :: Shows(plan, items, dones, batch) && Presents(batch, record)
  }

  predicate Presents(batch: Batch, record: StepRecord) {
    && record.status == batch.status && record.error == batch.failure && record.collection && record.selection.None?
    && (if batch.status == Failed then record.partialResult == Some(Ledger(batch.entries)) && record.result.None?
        else record.result == Some(Ledger(batch.entries)) && record.partialResult.None?)
  }

  // What the execution of a collection with this list comes to.
  ghost predicate CollectionRan(e: Engine, step: Step, raw: seq<Json>, items: seq<Item>, dones: seq<ItemDone>,
                                worlds: seq<World>, depth: int, run: (Result<StepRecord, Exn>, World)) {
    && |items| == |raw| && Reads(e, step, raw, items) && RanInTurn(e, items, dones, worlds, depth)
    && match run.0
       case Ok(record) =>
         && Recorded(e.plan, items, dones, record) && (|dones| == |items| || Stopped(dones))
         && run.1 == worlds[|dones|]
       case Err(exn) =>
         && |dones| < |items| && !Stopped(dones)
         && RunItem(e, e.plan.At(items[|dones|].flow), items[|dones|].payload, worlds[|dones|], depth)
            == ItemRun(Err(exn), run.1)
  }

  // A collection reads the whole list or fails before any item runs; then the items run in the
  // order of the list, up to the first that stops, and the ledger shows each of them.
  lemma CollectionTrace(e: Engine, step: Step, inputs: Object, w: World, depth: int)
    returns (items: seq<Item>, dones: seq<ItemDone>, worlds: seq<World>)
    requires depth < LIMIT
    ensures var checked := CheckItems(e, step, RawItems(inputs), [], {}, w);
            var run := ExecuteCollection(e, step, inputs, w, depth);
            if !ItemsOnly(step, inputs) then run == (Err(Error(InvalidInput)), w)
            else
              match checked.0
              case Err(exn) => run == (Err(exn), checked.1)
              case Ok(_) =>
                && CollectionRan(e, step, RawItems(inputs), items, dones, worlds, depth + 1, run)
                && worlds[0] == checked.1
  {
    var checked := CheckItems(e, step, RawItems(inputs), [], {}, w);
    items, dones, worlds := [], [], [w];
    if ItemsOnly(step, inputs) && checked.0.Ok? {
      items := checked.0.value;
      assert Ids([]) == {};
      CheckedIsRead(e, step, RawItems(inputs), [], w);
      var batch := EmptyBatch(e.plan, items);
      dones, worlds := ItemsInTurn(e, items, [], [checked.1], batch, depth + 1);
      CollectionEnds(e, step, inputs, w, depth, items, dones, worlds, checked.1);
    }
  }

  lemma CollectionEnds(e: Engine, step: Step, inputs: Object, w: World, depth: int, items: seq<Item>,
                       dones: seq<ItemDone>, worlds: seq<World>, w1: World)
    requires depth < LIMIT && ItemsOnly(step, inputs) && Reads(e, step, RawItems(inputs), items)
    requires CheckItems(e, step, RawItems(inputs), [], {}, w) == (Ok(items), w1) && |items| == |RawItems(inputs)|
    requires RunsOut(e, items, dones, worlds, depth + 1, RunItems(e, 0, EmptyBatch(e.plan, items), w1, depth + 1))
    ensures CollectionRan(e, step, RawItems(inputs), items, dones, worlds, depth + 1,
                          ExecuteCollection(e, step, inputs, w, depth))
  {
    BatchRuns(e, step, inputs, w, depth, items, w1);
    var run := RunItems(e, 0, EmptyBatch(e.plan, items), w1, depth + 1);
    if run.0.Ok? {
      assert Presents(run.0.value, CollectionRecord(run.0.value));
    }
  }
}
