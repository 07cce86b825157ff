/**
 One tool step of the agent: every announced call gets exactly one result, in order, whichever of its parsing, policy,
 hooks and tools fail and whenever the user interrupts, unless something raises where nothing catches it.
 */
module ToolStep {
  import opened Common
  import opened History
  import opened HistoryTree
  import opened HistoryLinear
  import opened HistoryManagers
  import opened ToolScheduler

  datatype Parsed = Input(text: string) | BadInput(error: string)

  datatype Item = Item(index: nat, name: string, id: string, input: Parsed)

  /**
   What happens outside: parsing, policy, interruptions, hooks, tools and their order of finishing. Two things are
   caught by nobody: a batch that raises before its results are recorded (the second look of a classifier, say), by
   the index of its first call, and an observation that cannot be traced or truncated, because decoding it raises
   something other than a decode error or its error text cannot be encoded.
   */
  datatype World = World(
    callId: nat -> string,
    parse: string -> Parsed,
    policyAllowsParallel: bool,
    maxWorkers: int,
    classifiedSafe: Item -> bool,
    stoppedAt: nat -> bool,
    stoppedDuring: nat -> bool,
    prepare: Item -> Result<string, string>,
    stillSafe: Item -> bool,
    dispatch: nat -> Result<string, string>,
    publish: (nat, string) -> Result<string, ()>,
    truncate: (string, string) -> string,
    batchRaises: nat -> bool,
    raises: string -> bool,
    finishing: nat -> seq<nat>)

  ghost predicate Sane(w: World) {
    forall n: nat :: IsOrder(w.finishing(n), n)
  }

  function Envelope(code: string, message: string): string {
    "{\"status\":\"error\",\"error\":{\"code\":\"" + code + "\",\"message\":\"" + message + "\"}}"
  }

  const NOT_EXECUTED := Envelope("INTERRUPTED", "Tool not executed: user interrupted")

  // ---------- What a step should record ----------

  function AssignIds(w: World, calls: seq<Call>): (r: seq<Call>)
    ensures |r| == |calls| && forall i :: 0 <= i < |calls| ==> r[i].id != ""
    ensures forall i :: 0 <= i < |calls| && calls[i].id != "" ==> r[i] == calls[i]
  {
    seq(|calls|, i requires 0 <= i < |calls| => if calls[i].id == "" then calls[i].(id := "call_" + w.callId(i))
                                                else calls[i])
  }

  function Items(w: World, calls: seq<Call>): (r: seq<Item>)
    ensures |r| == |calls|
    ensures forall i :: 0 <= i < |calls| ==>
              r[i] == Item(i, NameOf(calls[i]), calls[i].id, w.parse(calls[i].arguments))
  {
    seq(|calls|, i requires 0 <= i < |calls| => Item(i, NameOf(calls[i]), calls[i].id, w.parse(calls[i].arguments)))
  }

  function SafeForParallel(w: World): Item -> bool {
    (item: Item) => w.policyAllowsParallel && item.input.Input? && w.classifiedSafe(item)
  }

  function Workers(w: World): int {
    if w.policyAllowsParallel then (if w.maxWorkers < 1 then 1 else if w.maxWorkers > 8 then 8 else w.maxWorkers) else 1
  }

  /** The first call of the batch a call belongs to. */
  function BatchStart(items: seq<Item>, safe: Item -> bool, i: nat): nat
    requires i < |items|
  {
    if i == 0 || !safe(items[i - 1]) || !safe(items[i]) then i else BatchStart(items, safe, i - 1)
  }

  function Published(w: World, item: Item, text: string): string {
    var p := w.publish(item.index, text);
    if p.Ok? then p.value else Envelope("EXECUTION_ERROR", "Tool result hook failed")
  }

  /** The observation of a call: `stopped` if the user had interrupted when its batch began. */
  function Observation(w: World, item: Item, stopped: bool): string {
    var prepared := w.prepare(item);
    if stopped then NOT_EXECUTED
    else if item.input.BadInput? then Envelope("INVALID_PARAM", "Tool arguments parse error: " + item.input.error)
    else if w.stoppedDuring(item.index) then (if prepared.Ok? then Published(w, item, NOT_EXECUTED) else NOT_EXECUTED)
    else if prepared.Err? then Envelope("EXECUTION_ERROR", prepared.error)
    else
      var d := w.dispatch(item.index);
      if d.Err? then Envelope("EXECUTION_ERROR", d.error) else Published(w, item, d.value)
  }

  /** The first call of the batch of call `i`. */
  function BatchOf(w: World, calls: seq<Call>, i: nat): nat
    requires i < |calls|
  {
    BatchStart(Items(w, calls), Effective(SafeForParallel(w), Workers(w)), i)
  }

  function ObservationOf(w: World, calls: seq<Call>, i: nat): string
    requires i < |calls|
  {
    Observation(w, Items(w, calls)[i], w.stoppedAt(BatchOf(w, calls, i)))
  }

  /** The recorded result of call `i`, as the history truncates it. */
  function Recorded(w: World, calls: seq<Call>, i: nat): string
    requires i < |calls|
  {
    w.truncate(Items(w, calls)[i].name, ObservationOf(w, calls, i))
  }

  /** An exception leaves the step before the result of call `i` is recorded. */
  predicate Escapes(w: World, calls: seq<Call>, i: nat)
    requires i < |calls|
  {
    (BatchOf(w, calls, i) == i && w.batchRaises(i)) || w.raises(ObservationOf(w, calls, i))
  }

  /** Some call of a step raises where nothing catches it. */
  predicate StepEscapes(w: World, calls: seq<Call>) {
    var named := AssignIds(w, calls);
    exists i | 0 <= i < |named| :: Escapes(w, named, i)
  }

  /** The results of the calls from `from` to `to` are recorded without an exception. */
  ghost predicate Calm(w: World, calls: seq<Call>, from: nat, to: nat)
    requires to <= |calls|
  {
    forall i :: from <= i < to ==> !Escapes(w, calls, i)
  }

  // ---------- What the model is told ----------

  /** Call `i` as the tools see it. */
  function Seen(w: World, calls: seq<Call>, i: nat): Item
    requires i < |calls|
  {
    Item(i, if calls[i].name == "" then "unknown_tool" else calls[i].name, calls[i].id, w.parse(calls[i].arguments))
  }

  /** Only a parsed call of a tool classified safe may overlap others, if the policy has two workers for it. */
  predicate MayOverlap(w: World, calls: seq<Call>, i: nat)
    requires i < |calls|
  {
    w.policyAllowsParallel && w.maxWorkers >= 2 && Seen(w, calls, i).input.Input? && w.classifiedSafe(Seen(w, calls, i))
  }

  /** The batch of call `i` begins at call `start`: calls that may all overlap, as far back as they go. */
  ghost predicate FirstOfBatch(w: World, calls: seq<Call>, start: nat, i: nat) {
    && start <= i < |calls|
    && (start < i ==> forall k :: start <= k <= i ==> MayOverlap(w, calls, k))
    && (start > 0 ==> !(MayOverlap(w, calls, start - 1) && MayOverlap(w, calls, start)))
  }

  const INTERRUPTED :=
    "{\"status\":\"error\",\"error\":{\"code\":\"INTERRUPTED\",\"message\":\""
    + "Tool not executed: user interrupted" + "\"}}"

  const HOOK_FAILED :=
    "{\"status\":\"error\",\"error\":{\"code\":\"EXECUTION_ERROR\",\"message\":\"" + "Tool result hook failed" + "\"}}"

  /** A result passes the hook that publishes it, or says that the hook failed. */
  predicate Passes(w: World, i: nat, text: string, observed: string) {
    && (w.publish(i, text).Ok? ==> observed == w.publish(i, text).value)
    && (w.publish(i, text).Err? ==> observed == HOOK_FAILED)
  }

  predicate Fails(error: string, observed: string) {
    observed
    == "{\"status\":\"error\",\"error\":{\"code\":\"EXECUTION_ERROR\",\"message\":\"" + error + "\"}}"
  }

  /** What is observed of a call, case by case; `stopped` if the user had interrupted when its batch began. */
  predicate Observes(w: World, item: Item, stopped: bool, observed: string) {
    var prepared, input := w.prepare(item), item.input;
    && (stopped ==> observed == INTERRUPTED)
    && (!stopped && input.BadInput? ==>
          observed == "{\"status\":\"error\",\"error\":{\"code\":\"INVALID_PARAM\",\"message\":\""
                      + "Tool arguments parse error: " + input.error + "\"}}")
    && (!stopped && input.Input? && w.stoppedDuring(item.index) && prepared.Err? ==> observed == INTERRUPTED)
    && (!stopped && input.Input? && w.stoppedDuring(item.index) && prepared.Ok? ==>
          Passes(w, item.index, INTERRUPTED, observed))
    && (!stopped && input.Input? && !w.stoppedDuring(item.index) && prepared.Err? ==> Fails(prepared.error, observed))
    && (!stopped && input.Input? && !w.stoppedDuring(item.index) && prepared.Ok? ==>
          match w.dispatch(item.index)
          case Ok(result) => Passes(w, item.index, result, observed)
          case Err(error) => Fails(error, observed))
  }

  /** What is observed of call `i` in the step. */
  ghost predicate ObservedAt(w: World, calls: seq<Call>, i: nat, observed: string)
    requires i < |calls|
  {
    exists start ::
      FirstOfBatch(w, calls, start, i) && Observes(w, Seen(w, calls, i), w.stoppedAt(start), observed)
  }

  ghost predicate Raises(w: World, calls: seq<Call>, i: nat)
    requires i < |calls|
  {
    || (FirstOfBatch(w, calls, i, i) && w.batchRaises(i))
    || exists observed :: ObservedAt(w, calls, i, observed) && w.raises(observed)
  }

  /** What is recorded of call `i`: what was observed, truncated for its tool. */
  ghost predicate OutputOf(w: World, calls: seq<Call>, i: nat, output: string)
    requires i < |calls|
  {
    exists observed :: ObservedAt(w, calls, i, observed) && output == w.truncate(Seen(w, calls, i).name, observed)
  }

  /** The turn a step should append. */
  ghost predicate RightTurn(w: World, response: string, reasoning: string, calls: seq<Call>, e: Event) {
    && e.Turn? && e.content == response && e.reasoning == reasoning && e.calls == AssignIds(w, calls)
    && |e.outputs| == |calls|
    && forall i :: 0 <= i < |calls| ==> e.outputs[i] == Recorded(w, e.calls, i) && OutputOf(w, e.calls, i, e.outputs[i])
  }

  /** The result message of call `i`: paired by its id, holding what is recorded of it. */
  ghost predicate ResultOf(w: World, calls: seq<Call>, i: nat, m: Message)
    requires i < |calls|
  {
    && m.role == Role.Tool && m.meta.callId == calls[i].id && m.meta.toolName == Seen(w, calls, i).name
    && OutputOf(w, calls, i, m.content)
  }

  /** The calls as recorded: as announced, with an id for each that had none. */
  ghost predicate Named(w: World, announced: seq<Call>, calls: seq<Call>) {
    && |calls| == |announced|
    && forall i :: 0 <= i < |calls| ==>
         && calls[i].name == announced[i].name && calls[i].arguments == announced[i].arguments
         && calls[i].id == if announced[i].id == "" then "call_" + w.callId(i) else announced[i].id
  }

  /**
   What a step adds to the messages: the response with its calls, then the result of each call in order; if an
   exception escapes, the results stop before the first call that raises.
   */
  ghost predicate StepTells(w: World, announced: seq<Call>, response: string, reasoning: string, before: seq<Message>,
                            after: seq<Message>, escaped: bool)
  {
    && |before| < |after| && after[..|before|] == before
    && var m, results := after[|before|], after[|before| + 1..];
       && m.role == Assistant && m.content == response && m.meta.reasoning == reasoning
       && Named(w, announced, m.meta.calls)
       && |results| <= |announced|
       && (escaped <==> |results| < |announced|)
       && (escaped ==> Raises(w, m.meta.calls, |results|))
       && forall i :: 0 <= i < |results| ==>
            ResultOf(w, m.meta.calls, i, results[i]) && !Raises(w, m.meta.calls, i)
  }

  lemma FailsIs(error: string)
    ensures Fails(error, Envelope("EXECUTION_ERROR", error))
  {
  }

  lemma InterruptedIs(message: string)
    ensures Envelope("INTERRUPTED", message)
         == "{\"status\":\"error\",\"error\":{\"code\":\"INTERRUPTED\",\"message\":\"" + message + "\"}}"
  {
  }

  lemma EnvelopeTexts()
    ensures NOT_EXECUTED == INTERRUPTED
    ensures Envelope("EXECUTION_ERROR", "Tool result hook failed") == HOOK_FAILED
  {
    hide Envelope;
    InterruptedIs("Tool not executed: user interrupted");
    FailsIs("Tool result hook failed");
  }

  lemma ParseErrorIs(error: string)
    ensures Envelope("INVALID_PARAM", "Tool arguments parse error: " + error)
         == "{\"status\":\"error\",\"error\":{\"code\":\"INVALID_PARAM\",\"message\":\""
            + "Tool arguments parse error: " + error + "\"}}"
  {
  }

  lemma ObservationIs(w: World, item: Item, stopped: bool, observed: string)
    ensures Observes(w, item, stopped, observed) <==> observed == Observation(w, item, stopped)
  {
    hide Envelope, NOT_EXECUTED, INTERRUPTED, HOOK_FAILED;
    EnvelopeTexts();
    if item.input.BadInput? {
      ParseErrorIs(item.input.error);
    }
    if w.prepare(item).Err? {
      FailsIs(w.prepare(item).error);
    }
    if w.dispatch(item.index).Err? {
      FailsIs(w.dispatch(item.index).error);
    }
  }

  // ---------- Running the batches ----------

  datatype Outcome = Outcome(text: string, error: Option<string>)

  /** What a worker does with one call, given what was prepared for its batch. */
  function Execute(w: World, prepared: map<nat, string>, failed: map<nat, string>, item: Item): Outcome {
    if item.input.BadInput?
    then Outcome(Envelope("INVALID_PARAM", "Tool arguments parse error: " + item.input.error), None)
    else if w.stoppedDuring(item.index) then Outcome(NOT_EXECUTED, None)
    else if item.index in failed then Outcome(Envelope("EXECUTION_ERROR", failed[item.index]), Some(failed[item.index]))
    else
      var d := w.dispatch(item.index);
      if d.Ok? then Outcome(d.value, None) else Outcome(Envelope("EXECUTION_ERROR", d.error), Some(d.error))
  }

  method PrepareBatch(w: World, calls: seq<Item>) returns (prepared: map<nat, string>, failed: map<nat, string>)
    requires forall i, j :: 0 <= i < j < |calls| ==> calls[i].index != calls[j].index
    ensures forall i :: 0 <= i < |calls| ==> Prepares(w, calls[i], prepared, failed)
  {
    prepared, failed := map[], map[];
    for k := 0 to |calls|
      invariant forall i :: 0 <= i < k ==> Prepares(w, calls[i], prepared, failed)
      invariant forall i :: k <= i < |calls| ==> calls[i].index !in prepared && calls[i].index !in failed
    {
      if calls[k].input.Input? {
        var p := w.prepare(calls[k]);
        if p.Ok? {
          prepared := prepared[calls[k].index := p.value];
        } else {
          failed := failed[calls[k].index := p.error];
        }
      }
    }
  }

  ghost predicate Prepares(w: World, item: Item, prepared: map<nat, string>, failed: map<nat, string>) {
    var p := w.prepare(item);
    && (item.index in prepared <==> item.input.Input? && p.Ok?)
    && (item.index in failed <==> item.input.Input? && p.Err?)
    && (item.index in failed ==> failed[item.index] == p.error)
  }

  /** The observations of one batch, in call order. */
  method RunBatch(w: World, batch: Batch<Item>, stopped: bool) returns (observations: seq<string>)
    requires Sane(w) && forall i, j :: 0 <= i < j < |batch.calls| ==> batch.calls[i].index != batch.calls[j].index
    ensures |observations| == |batch.calls|
    ensures forall i :: 0 <= i < |batch.calls| ==> observations[i] == Observation(w, batch.calls[i], stopped)
    ensures forall i :: 0 <= i < |batch.calls| ==> Observes(w, batch.calls[i], stopped, observations[i])
  {
    forall item: Item ensures Observes(w, item, stopped, Observation(w, item, stopped)) {
      ObservationIs(w, item, stopped, Observation(w, item, stopped));
    }
    hide Observes;
    observations := [];
    if stopped {
      for i := 0 to |batch.calls|
        invariant |observations| == i && forall k :: 0 <= k < i ==> observations[k] == NOT_EXECUTED
      {
        observations := observations + [NOT_EXECUTED];
      }
      return;
    }
    var prepared, failed := PrepareBatch(w, batch.calls);
    var parallel := batch.concurrent && forall i | 0 <= i < |batch.calls| ::
      batch.calls[i].index in prepared && w.stillSafe(batch.calls[i]);
    var outcomes := RunToolBatch(Batch(batch.calls, parallel), item => Execute(w, prepared, failed, item),
                                 Workers(w), w.finishing(|batch.calls|));
    for i := 0 to |batch.calls|
      invariant |observations| == i
      invariant forall k :: 0 <= k < i ==> observations[k] == Observation(w, batch.calls[k], false)
    {
      var item, o := batch.calls[i], outcomes[i];
      assert Prepares(w, item, prepared, failed);
      var text := o.text;
      if item.index in prepared && o.error.None? {
        text := Published(w, item, text);
      }
      observations := observations + [text];
    }
  }

  // ---------- The batch of a call ----------

  lemma {:induction false} StartsHere(items: seq<Item>, safe: Item -> bool, from: nat, k: nat)
    requires from + k < |items|
    requires from > 0 ==> !(safe(items[from - 1]) && safe(items[from]))
    requires k > 0 ==> forall t :: from <= t <= from + k ==> safe(items[t])
    ensures BatchStart(items, safe, from + k) == from
  {
    if k == 0 {
    } else {
      StartsHere(items, safe, from, k - 1);
    }
  }

  /** A batch of a plan is a slice of the calls, and the one before it ends another run. */
  lemma BatchIsSlice(batches: seq<Batch<Item>>, items: seq<Item>, safe: Item -> bool, b: nat, from: nat)
    requires IsPlan(batches, items, safe) && b < |batches| && from == |Flatten(batches[..b])|
    ensures from + |batches[b].calls| <= |items|
    ensures items[from..from + |batches[b].calls|] == batches[b].calls
    ensures Flatten(batches[..b + 1]) == Flatten(batches[..b]) + batches[b].calls
    ensures batches[b].calls != [] && (|batches[b].calls| == 1 || AllSafe(batches[b].calls, safe))
    ensures from > 0 ==> !(safe(items[from - 1]) && safe(items[from]))
  {
    hide Flatten;
    assert BatchFits(batches[b], safe);
    FlattenPrefix(batches, b + 1);
    assert batches[..b + 1] == batches[..b] + [batches[b]];
    FlattenOne(batches[..b], batches[b]);
    if b > 0 {
      assert Apart(batches[b - 1], batches[b], safe);
      assert batches[..b] == batches[..b - 1] + [batches[b - 1]];
      FlattenOne(batches[..b - 1], batches[b - 1]);
      var before := Flatten(batches[..b]);
      assert before[from - 1] == Last(batches[b - 1].calls) && items[from - 1] == before[from - 1];
      assert items[from] == batches[b].calls[0];
    } else {
      assert batches[..0] == [];
      NothingFlattened<Item>();
    }
  }

  /** In a plan, a batch starts where its calls' batch starts. */
  lemma BatchStartsAt(batches: seq<Batch<Item>>, items: seq<Item>, safe: Item -> bool, b: nat, from: nat)
    requires IsPlan(batches, items, safe) && b < |batches| && from == |Flatten(batches[..b])|
    ensures batches[b].calls != [] && from + |batches[b].calls| <= |items|
    ensures items[from..from + |batches[b].calls|] == batches[b].calls
    ensures Flatten(batches[..b + 1]) == Flatten(batches[..b]) + batches[b].calls
    ensures forall t :: from <= t < from + |batches[b].calls| ==> BatchStart(items, safe, t) == from
  {
    BatchIsSlice(batches, items, safe, b, from);
    SafeInPlace(items, safe, from, batches[b].calls);
    hide *;
    SliceStarts(items, safe, from, |batches[b].calls|);
  }

  lemma SafeInPlace(items: seq<Item>, safe: Item -> bool, from: nat, calls: seq<Item>)
    requires from + |calls| <= |items| && items[from..from + |calls|] == calls
    requires |calls| == 1 || AllSafe(calls, safe)
    ensures |calls| > 1 ==> forall t :: from <= t < from + |calls| ==> safe(items[t])
  {
    forall t | from <= t < from + |calls| ensures items[t] == calls[t - from] {}
  }

  lemma SliceStarts(items: seq<Item>, safe: Item -> bool, from: nat, n: nat)
    requires 0 < n && from + n <= |items|
    requires n > 1 ==> forall t :: from <= t < from + n ==> safe(items[t])
    requires from > 0 ==> !(safe(items[from - 1]) && safe(items[from]))
    ensures forall t :: from <= t < from + n ==> BatchStart(items, safe, t) == from
  {
    hide BatchStart;
    forall t | from <= t < from + n ensures BatchStart(items, safe, t) == from {
      StartsHere(items, safe, from, t - from);
    }
  }

  /** A batch begins where its first call says it does, and nowhere else. */
  lemma {:induction false} FirstIsStart(w: World, calls: seq<Call>, i: nat)
    requires i < |calls|
    ensures FirstOfBatch(w, calls, BatchOf(w, calls, i), i)
    decreases i
  {
    hide MayOverlap, Effective, SafeForParallel, Workers, Seen;
    MayOverlapIs(w, calls, i);
    if i == 0 {
    } else {
      MayOverlapIs(w, calls, i - 1);
      if MayOverlap(w, calls, i - 1) && MayOverlap(w, calls, i) {
        FirstIsStart(w, calls, i - 1);
      }
    }
  }

  lemma MayOverlapIs(w: World, calls: seq<Call>, i: nat)
    requires i < |calls|
    ensures MayOverlap(w, calls, i) <==> Effective(SafeForParallel(w), Workers(w))(Items(w, calls)[i])
    ensures Items(w, calls)[i] == Seen(w, calls, i)
  {
  }

  lemma StartIsFirst(w: World, calls: seq<Call>, start: nat, i: nat)
    requires FirstOfBatch(w, calls, start, i)
    ensures BatchOf(w, calls, i) == start
  {
    forall k | 0 <= k < |calls|
      ensures MayOverlap(w, calls, k) <==> Effective(SafeForParallel(w), Workers(w))(Items(w, calls)[k])
    {
      MayOverlapIs(w, calls, k);
    }
    hide MayOverlap, Effective, SafeForParallel;
    StartsHere(Items(w, calls), Effective(SafeForParallel(w), Workers(w)), start, i - start);
  }

  lemma ObservedIs(w: World, calls: seq<Call>, i: nat, observed: string)
    requires i < |calls|
    ensures ObservedAt(w, calls, i, observed) <==> observed == ObservationOf(w, calls, i)
  {
    hide Observes, Observation, FirstOfBatch, BatchOf;
    var at := BatchOf(w, calls, i);
    FirstIsStart(w, calls, i);
    MayOverlapIs(w, calls, i);
    ObservationIs(w, Seen(w, calls, i), w.stoppedAt(at), observed);
    if start :| FirstOfBatch(w, calls, start, i)
                && Observes(w, Seen(w, calls, i), w.stoppedAt(start), observed) {
      StartIsFirst(w, calls, start, i);
    }
  }

  lemma OutputIs(w: World, calls: seq<Call>, i: nat)
    requires i < |calls|
    ensures OutputOf(w, calls, i, Recorded(w, calls, i))
  {
    hide ObservedAt, ObservationOf;
    MayOverlapIs(w, calls, i);
    ObservedIs(w, calls, i, ObservationOf(w, calls, i));
  }

  lemma RaisesIs(w: World, calls: seq<Call>, i: nat)
    requires i < |calls|
    ensures Raises(w, calls, i) <==> Escapes(w, calls, i)
  {
    hide ObservedAt, ObservationOf, FirstOfBatch, BatchOf;
    FirstIsStart(w, calls, i);
    if FirstOfBatch(w, calls, i, i) {
      StartIsFirst(w, calls, i, i);
    }
    ObservedIs(w, calls, i, ObservationOf(w, calls, i));
    if observed :| ObservedAt(w, calls, i, observed) && w.raises(observed) {
      ObservedIs(w, calls, i, observed);
    }
  }

  lemma {:induction false} FlattenPrefix<T>(batches: seq<Batch<T>>, b: nat)
    requires b <= |batches|
    ensures Flatten(batches[..b]) <= Flatten(batches)
  {
    if b == |batches| {
      assert batches[..b] == batches;
    } else {
      FlattenPrefix(Front(batches), b);
      assert Front(batches)[..b] == batches[..b];
    }
  }

  // ---------- The step ----------

  /** The results recorded so far: the history after them, their new ids and their contents. */
  ghost predicate Recording(w: World, h0: History, e: Event, view: History, n: nat) {
    && e.Turn? && n == |e.resultIds| == |e.outputs| <= |e.calls|
    && view == AddResults(AppendAssistant(h0, e.id, e.content, e.calls, e.reasoning), e.calls, e.resultIds, e.outputs,
                          n)
    && (forall i :: 0 <= i < n ==> e.outputs[i] == Recorded(w, e.calls, i))
    && Distinct(e.resultIds) && Fresh(h0, e.id) && e.id in Nodes(view) && Nodes(h0) <= Nodes(view)
    && forall i :: 0 <= i < n ==> Fresh(h0, e.resultIds[i]) && e.resultIds[i] != e.id && e.resultIds[i] in Nodes(view)
  }

  lemma {:induction false} AddResultsPrefix(h: History, calls: seq<Call>, ids: seq<Id>, outputs: seq<string>, id: Id,
                                            output: string, n: nat)
    requires n <= |calls| && n <= |ids| && n <= |outputs|
    ensures AddResults(h, calls, ids + [id], outputs + [output], n) == AddResults(h, calls, ids, outputs, n)
  {
    hide AppendTool;
    if n == 0 {
    } else {
      AddResultsPrefix(h, calls, ids, outputs, id, output, n - 1);
    }
  }

  lemma ToolNodes(h: History, id: Id, name: string, callId: string, content: string)
    ensures Nodes(AppendTool(h, id, name, callId, content)) == Nodes(h) + {id}
  {
    hide EntryIds;
  }

  lemma StartRecording(w: World, h0: History, e: Event)
    requires e.Turn? && e.resultIds == [] && e.outputs == [] && Fresh(h0, e.id)
    ensures Recording(w, h0, e, AppendAssistant(h0, e.id, e.content, e.calls, e.reasoning), 0)
  {
    hide EntryIds, Recorded;
  }

  lemma RecordOne(w: World, h0: History, e: Event, view: History, n: nat, id: Id, output: string)
    requires Recording(w, h0, e, view, n) && n < |e.calls| && Fresh(view, id) && output == Recorded(w, e.calls, n)
    ensures Recording(w, h0, e.(resultIds := e.resultIds + [id], outputs := e.outputs + [output]),
                      AppendTool(view, id, NameOf(e.calls[n]), e.calls[n].id, output), n + 1)
  {
    hide Recorded, AppendTool, AppendAssistant, AddResults, Nodes;
    var f := e.(resultIds := e.resultIds + [id], outputs := e.outputs + [output]);
    var h1 := AppendAssistant(h0, e.id, e.content, e.calls, e.reasoning);
    ToolNodes(view, id, NameOf(e.calls[n]), e.calls[n].id, output);
    AddResultsPrefix(h1, e.calls, e.resultIds, e.outputs, id, output, n);
    AddResultsNext(h1, f.calls, f.resultIds, f.outputs, n);
  }

  lemma AddResultsNext(h: History, calls: seq<Call>, ids: seq<Id>, outputs: seq<string>, n: nat)
    requires n < |calls| && n < |ids| && n < |outputs|
    ensures AddResults(h, calls, ids, outputs, n + 1)
         == AppendTool(AddResults(h, calls, ids, outputs, n), ids[n], NameOf(calls[n]), calls[n].id, outputs[n])
  {
  }

  lemma RecordingIsTurn(w: World, h0: History, e: Event, view: History, response: string, reasoning: string,
                        calls: seq<Call>)
    requires e.Turn? && Recording(w, h0, e, view, |e.calls|) && e.calls == AssignIds(w, calls)
    requires e.content == response && e.reasoning == reasoning
    ensures Fits(h0, e) && RightTurn(w, response, reasoning, calls, e) && view == After(h0, e)
  {
    hide Recorded, AppendAssistant, AddResults, Nodes, OutputOf;
    forall i | 0 <= i < |e.calls| ensures OutputOf(w, e.calls, i, Recorded(w, e.calls, i)) {
      OutputIs(w, e.calls, i);
    }
  }

  /** The observations of a batch are those to be recorded for the calls from `from` on. */
  ghost predicate Ready(w: World, calls: seq<Call>, batch: Batch<Item>, observations: seq<string>, from: nat) {
    && from + |batch.calls| <= |calls| && |observations| == |batch.calls|
    && forall k :: 0 <= k < |batch.calls| ==> ReadyOne(w, calls, batch.calls[k], observations[k], from + k)
  }

  ghost predicate ReadyOne(w: World, calls: seq<Call>, item: Item, observation: string, i: nat) {
    && i < |calls| && item.name == NameOf(calls[i]) && item.id == calls[i].id
    && observation == ObservationOf(w, calls, i) && w.truncate(item.name, observation) == Recorded(w, calls, i)
  }

  method RecordResult(hm: HistoryManager, w: World, ghost h0: History, ghost e: Event, item: Item, observation: string,
                      ghost n: nat)
    returns (ghost f: Event)
    requires e.Turn? && Recording(w, h0, e, hm.View(), n) && ReadyOne(w, e.calls, item, observation, n)
    modifies hm
    ensures f.Turn? && f == e.(resultIds := f.resultIds, outputs := f.outputs)
    ensures Recording(w, h0, f, hm.View(), n + 1)
  {
    hide Recording, Recorded;
    var content := w.truncate(item.name, observation);
    var id := hm.GenerateId();
    RecordOne(w, h0, e, hm.View(), n, id, content);
    f := e.(resultIds := e.resultIds + [id], outputs := e.outputs + [content]);
    hm.AddTool(id, item.name, item.id, content);
  }

  /** Appends the results of one batch, up to the first that cannot be recorded. */
  method RecordBatch(hm: HistoryManager, w: World, ghost h0: History, ghost e: Event, batch: Batch<Item>,
                     observations: seq<string>, ghost from: nat)
    returns (escaped: bool, ghost f: Event, ghost n: nat)
    requires e.Turn? && Recording(w, h0, e, hm.View(), from) && Ready(w, e.calls, batch, observations, from)
    requires forall i :: from <= i < from + |batch.calls| ==> BatchOf(w, e.calls, i) == from
    requires !w.batchRaises(from)
    modifies hm
    ensures f.Turn? && f == e.(resultIds := f.resultIds, outputs := f.outputs)
    ensures Progress(w, h0, f, hm.View(), from, from + |batch.calls|, n, escaped)
  {
    hide Recording, BatchOf, ObservationOf, Recorded;
    f, n, escaped := e, from, false;
    for k := 0 to |batch.calls|
      invariant f.Turn? && f == e.(resultIds := f.resultIds, outputs := f.outputs)
      invariant n == from + k && Recording(w, h0, f, hm.View(), n) && Calm(w, e.calls, from, n)
    {
      assert ReadyOne(w, e.calls, batch.calls[k], observations[k], from + k);
      if w.raises(observations[k]) {
        return true, f, n;
      }
      f := RecordResult(hm, w, h0, f, batch.calls[k], observations[k], n);
      n := n + 1;
    }
  }

  /** `n` results are recorded: all up to `to`, or those before the first exception. */
  ghost predicate Progress(w: World, h0: History, e: Event, view: History, from: nat, to: nat, n: nat, escaped: bool) {
    && e.Turn? && to <= |e.calls| && from <= n <= to
    && Recording(w, h0, e, view, n) && Calm(w, e.calls, from, n)
    && (if escaped then n < to && Escapes(w, e.calls, n) else n == to)
  }

  /** A step that an exception left: the turn so far, without the result of the call that raised and of all after it. */
  ghost predicate LeftOff(w: World, h0: History, response: string, reasoning: string, calls: seq<Call>, e: Event,
                          view: History)
  {
    && e.Turn? && e.content == response && e.reasoning == reasoning && e.calls == AssignIds(w, calls)
    && |e.outputs| < |e.calls| && Recording(w, h0, e, view, |e.outputs|)
    && Calm(w, e.calls, 0, |e.outputs|) && Escapes(w, e.calls, |e.outputs|)
  }

  /** The messages of the first results: one each, behind what was there. */
  lemma {:induction false} ResultsTold(h: History, calls: seq<Call>, ids: seq<Id>, outputs: seq<string>, n: nat)
    requires n <= |calls| && n <= |ids| && n <= |outputs|
    ensures var ms := AddResults(h, calls, ids, outputs, n).messages;
            && |ms| == |h.messages| + n && ms[..|h.messages|] == h.messages
            && forall i :: 0 <= i < n ==> IsResult(ms[|h.messages| + i], calls[i], outputs[i])
  {
    if n == 0 {
    } else {
      ResultsTold(h, calls, ids, outputs, n - 1);
      var was := AddResults(h, calls, ids, outputs, n - 1).messages;
      var ms := AddResults(h, calls, ids, outputs, n).messages;
      assert ms[..|was|] == was;
      assert ms[..|h.messages|] == was[..|h.messages|];
      hide IsResult, AddResults;
      forall i | 0 <= i < n ensures IsResult(ms[|h.messages| + i], calls[i], outputs[i]) {
        if i == n - 1 {
          LastResult(h, calls, ids, outputs, n);
        } else {
          assert ms[|h.messages| + i] == was[|h.messages| + i];
        }
      }
    }
  }

  lemma LastResult(h: History, calls: seq<Call>, ids: seq<Id>, outputs: seq<string>, n: nat)
    requires 0 < n <= |calls| && n <= |ids| && n <= |outputs|
    ensures var ms := AddResults(h, calls, ids, outputs, n).messages;
            ms != [] && IsResult(Last(ms), calls[n - 1], outputs[n - 1])
  {
  }

  predicate IsResult(m: Message, call: Call, output: string) {
    && m.role == Role.Tool && m.content == output && m.meta.callId == call.id
    && m.meta.toolName == if call.name == "" then "unknown_tool" else call.name
  }

  lemma ResultIs(w: World, calls: seq<Call>, i: nat, m: Message)
    requires i < |calls| && IsResult(m, calls[i], Recorded(w, calls, i))
    ensures ResultOf(w, calls, i, m)
  {
    hide OutputOf, Recorded;
    OutputIs(w, calls, i);
  }

  lemma ResponseTold(h: History, id: Id, content: string, calls: seq<Call>, reasoning: string)
    ensures var ms := AppendAssistant(h, id, content, calls, reasoning).messages;
            && ms != [] && Front(ms) == h.messages
            && Last(ms).role == Assistant && Last(ms).content == content
            && Last(ms).meta.reasoning == reasoning && Last(ms).meta.calls == calls
  {
  }

  lemma RecordingTold(w: World, h0: History, e: Event, view: History, n: nat)
    requires Recording(w, h0, e, view, n)
    ensures var ms, at := view.messages, |h0.messages|;
            && e.Turn? && n <= |e.calls| && |ms| == at + 1 + n && ms[..at] == h0.messages
            && ms[at].role == Assistant && ms[at].content == e.content
            && ms[at].meta.reasoning == e.reasoning && ms[at].meta.calls == e.calls
            && forall i :: 0 <= i < n ==> IsResult(ms[at + 1..][i], e.calls[i], Recorded(w, e.calls, i))
  {
    var h1 := AppendAssistant(h0, e.id, e.content, e.calls, e.reasoning);
    ResponseTold(h0, e.id, e.content, e.calls, e.reasoning);
    ResultsTold(h1, e.calls, e.resultIds, e.outputs, n);
    hide AppendAssistant, AddResults, IsResult, Recorded, Fresh, Nodes;
    var ms, at := view.messages, |h0.messages|;
    assert ms[..|h1.messages|][..at] == ms[..at];
    assert ms[at] == ms[..|h1.messages|][at];
  }

  lemma NamedIs(w: World, calls: seq<Call>)
    ensures Named(w, calls, AssignIds(w, calls))
  {
  }

  /** A step that recorded its first results, and then stopped or not, told just that. */
  lemma RecordingTells(w: World, h0: History, calls: seq<Call>, e: Event, view: History, escaped: bool)
    requires e.Turn? && e.calls == AssignIds(w, calls) && Recording(w, h0, e, view, |e.outputs|)
    requires Calm(w, e.calls, 0, |e.outputs|)
    requires if escaped then |e.outputs| < |e.calls| && Escapes(w, e.calls, |e.outputs|) else |e.outputs| == |e.calls|
    ensures StepTells(w, calls, e.content, e.reasoning, h0.messages, view.messages, escaped)
  {
    var n := |e.outputs|;
    RecordingTold(w, h0, e, view, n);
    NamedIs(w, calls);
    hide Recording, ResultOf, Raises, Escapes, Recorded, IsResult, Named, AssignIds;
    var results := view.messages[|h0.messages| + 1..];
    forall i | 0 <= i < n ensures ResultOf(w, e.calls, i, results[i]) && !Raises(w, e.calls, i) {
      ResultIs(w, e.calls, i, results[i]);
      RaisesIs(w, e.calls, i);
    }
    if escaped {
      RaisesIs(w, e.calls, n);
    }
  }

  /** Assistant message first, then batch by batch one result per call. */
  method ExecuteStepTools(hm: HistoryManager, w: World, calls: seq<Call>, response: string, reasoning: string)
    returns (escaped: bool, ghost e: Event)
    requires Sane(w)
    modifies hm
    ensures escaped == StepEscapes(w, calls)
    ensures !escaped ==>
              && Fits(old(hm.View()), e) && RightTurn(w, response, reasoning, calls, e)
              && hm.View() == After(old(hm.View()), e)
    ensures escaped ==> LeftOff(w, old(hm.View()), response, reasoning, calls, e, hm.View())
    ensures StepTells(w, calls, response, reasoning, old(hm.messages), hm.messages, escaped)
  {
    var named := NameCalls(w, calls);
    ghost var h0 := hm.View();
    var turnId := hm.GenerateId();
    hm.AddAssistant(turnId, response, named, reasoning);
    e := Turn(turnId, response, reasoning, named, [], []);
    StartRecording(w, h0, e);
    hide Recording, Escapes, RightTurn, Fits, After;
    ghost var n;
    escaped, e, n := ExecuteBatches(hm, w, named, h0, e);
    RecordedCount(w, h0, e, hm.View(), n);
    RecordingTells(w, h0, calls, e, hm.View(), escaped);
    if !escaped {
      RecordingIsTurn(w, h0, e, hm.View(), response, reasoning, calls);
    }
  }

  lemma RecordedCount(w: World, h0: History, e: Event, view: History, n: nat)
    requires Recording(w, h0, e, view, n)
    ensures e.Turn? && n == |e.outputs|
  {
  }

  method ExecuteBatches(hm: HistoryManager, w: World, named: seq<Call>, ghost h0: History, ghost e: Event)
    returns (escaped: bool, ghost f: Event, ghost n: nat)
    requires Sane(w) && e.Turn? && e.calls == named && Recording(w, h0, e, hm.View(), 0)
    modifies hm
    ensures f.Turn? && f == e.(resultIds := f.resultIds, outputs := f.outputs)
    ensures Progress(w, h0, f, hm.View(), 0, |e.calls|, n, escaped)
  {
    var items := ParseCalls(w, named);
    var batches := PlanToolBatches(items, SafeForParallel(w), Workers(w));
    hide Recording, IsPlan, Flatten, Effective, SafeForParallel, Workers, InPlan, Sane, Escapes;
    assert batches[..0] == [];
    NothingFlattened<Item>();
    var from := 0;
    f, n, escaped := e, 0, false;
    for b := 0 to |batches|
      invariant n == from == |Flatten(batches[..b])| <= |named|
      invariant f.Turn? && f == e.(resultIds := f.resultIds, outputs := f.outputs)
      invariant Recording(w, h0, f, hm.View(), from) && Calm(w, named, 0, from)
    {
      PlanBatch(w, named, batches, b, from);
      escaped, f, n := ExecuteBatch(hm, w, named, h0, f, batches[b], from);
      if escaped {
        return;
      }
      from := from + |batches[b].calls|;
    }
    PlanEnds(w, named, batches);
  }

  method ExecuteBatch(hm: HistoryManager, w: World, named: seq<Call>, ghost h0: History, ghost e: Event,
                      batch: Batch<Item>, from: nat)
    returns (escaped: bool, ghost f: Event, ghost n: nat)
    requires Sane(w) && e.Turn? && e.calls == named && Recording(w, h0, e, hm.View(), from)
    requires InPlan(w, named, batch, from)
    modifies hm
    ensures f.Turn? && f == e.(resultIds := f.resultIds, outputs := f.outputs)
    ensures Progress(w, h0, f, hm.View(), from, from + |batch.calls|, n, escaped)
  {
    StartsAtFrom(w, named, batch, from);
    hide Recording, Ready, BatchStart, Effective, SafeForParallel, Observation, BatchOf, ObservationOf;
    if w.batchRaises(from) {
      return true, e, from;
    }
    IndexesDiffer(w, named, batch.calls, from);
    var observations := RunBatch(w, batch, w.stoppedAt(from));
    BatchIsReady(w, named, batch, observations, from);
    escaped, f, n := RecordBatch(hm, w, h0, e, batch, observations, from);
  }

  lemma StartsAtFrom(w: World, calls: seq<Call>, batch: Batch<Item>, from: nat)
    requires InPlan(w, calls, batch, from)
    ensures batch.calls != [] && from + |batch.calls| <= |calls|
    ensures forall i :: from <= i < from + |batch.calls| ==> BatchOf(w, calls, i) == from
  {
    hide BatchStart, Effective, SafeForParallel, Workers;
  }

  lemma NothingFlattened<T>()
    ensures Flatten<T>([]) == []
  {
  }

  lemma PlanBatch(w: World, calls: seq<Call>, batches: seq<Batch<Item>>, b: nat, from: nat)
    requires IsPlan(batches, Items(w, calls), Effective(SafeForParallel(w), Workers(w)))
    requires b < |batches| && from == |Flatten(batches[..b])|
    ensures InPlan(w, calls, batches[b], from)
    ensures |Flatten(batches[..b + 1])| == from + |batches[b].calls| <= |calls|
  {
    hide IsPlan, Flatten, BatchStart, Effective, SafeForParallel, Workers;
    BatchStartsAt(batches, Items(w, calls), Effective(SafeForParallel(w), Workers(w)), b, from);
  }

  lemma PlanEnds(w: World, calls: seq<Call>, batches: seq<Batch<Item>>)
    requires IsPlan(batches, Items(w, calls), Effective(SafeForParallel(w), Workers(w)))
    ensures |Flatten(batches[..|batches|])| == |calls|
  {
    assert batches[..|batches|] == batches;
  }

  /** The batch holds the calls from `from` on, and starts there. */
  ghost predicate InPlan(w: World, calls: seq<Call>, batch: Batch<Item>, from: nat) {
    var items := Items(w, calls);
    && batch.calls != [] && from + |batch.calls| <= |items| && items[from..from + |batch.calls|] == batch.calls
    && forall t :: from <= t < from + |batch.calls| ==>
         BatchStart(items, Effective(SafeForParallel(w), Workers(w)), t) == from
  }

  /** What `RunBatch` observes for a batch is what should be recorded for its calls. */
  lemma BatchIsReady(w: World, calls: seq<Call>, batch: Batch<Item>, observations: seq<string>, from: nat)
    requires InPlan(w, calls, batch, from) && |observations| == |batch.calls|
    requires forall k :: 0 <= k < |batch.calls| ==> observations[k] == Observation(w, batch.calls[k], w.stoppedAt(from))
    ensures Ready(w, calls, batch, observations, from)
  {
    hide Observation;
    var items := Items(w, calls);
    forall k | 0 <= k < |batch.calls| ensures ReadyOne(w, calls, batch.calls[k], observations[k], from + k) {
      assert batch.calls[k] == items[from..from + |batch.calls|][k] == items[from + k];
    }
  }

  lemma IndexesDiffer(w: World, calls: seq<Call>, part: seq<Item>, from: nat)
    requires from + |part| <= |calls| && part == Items(w, calls)[from..from + |part|]
    ensures forall i, j :: 0 <= i < j < |part| ==> part[i].index != part[j].index
  {
    forall i | 0 <= i < |part| ensures part[i].index == from + i {
      assert part[i] == Items(w, calls)[from + i];
    }
  }

  method NameCalls(w: World, calls: seq<Call>) returns (named: seq<Call>)
    ensures named == AssignIds(w, calls)
  {
    named := calls;
    for i := 0 to |calls|
      invariant |named| == |calls| && named[..i] == AssignIds(w, calls)[..i] && named[i..] == calls[i..]
    {
      assert named[i] == named[i..][0] == calls[i];
      if named[i].id == "" {
        named := named[i := named[i].(id := "call_" + w.callId(i))];
      }
    }
  }

  method ParseCalls(w: World, calls: seq<Call>) returns (items: seq<Item>)
    ensures items == Items(w, calls)
  {
    items := [];
    for i := 0 to |calls|
      invariant items == Items(w, calls)[..i]
    {
      var call := calls[i];
      items := items + [Item(i, NameOf(call), call.id, w.parse(call.arguments))];
    }
  }
}
