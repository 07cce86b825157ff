/** The agent's step loop: compress, ask the model, run its tools or record its answer. */
module AgentLoops {
  import opened Common
  import opened History
  import opened HistoryAnswers
  import opened HistoryTree
  import opened HistoryWire
  import opened HistoryLinear
  import opened HistoryForked
  import opened HistoryManagers
  import opened ToolStep

  /** A model call raises, gives nothing, or replies. */
  datatype Reply = Failure | NoReply | Reply(text: string, reasoning: string, calls: seq<Call>)

  /** What one step meets outside: the user's interruptions, the context's size, the model and the tools. */
  datatype StepWorld = StepWorld(
    stoppedBefore: bool,
    prune: Option<(int, int)>,
    compact: Option<(Generated, string, string, string)>,
    reply: Reply,
    stoppedAfter: bool,
    tools: World)

  datatype Outcome = Interrupted | EmptyResponse | Answer(text: string) | StepLimit | Raised

  predicate Blank(c: char) {
    c == ' ' || c == '\n' || c == '\r' || c == '\t'
  }

  function Strip(text: string): (r: string)
    ensures r == "" || (!Blank(r[0]) && !Blank(r[|r| - 1]))
    decreases |text|
  {
    if text == "" then ""
    else if Blank(text[0]) then Strip(text[1..])
    else if Blank(text[|text| - 1]) then Strip(text[..|text| - 1])
    else text
  }

  /** Only blanks are stripped, and only at the two ends. */
  lemma {:induction false} StripIsExact(text: string) returns (before: string, after: string)
    ensures text == before + Strip(text) + after
    ensures forall i :: 0 <= i < |before| ==> Blank(before[i])
    ensures forall i :: 0 <= i < |after| ==> Blank(after[i])
    decreases |text|
  {
    if text == "" {
      before, after := "", "";
    } else if Blank(text[0]) {
      before, after := StripIsExact(text[1..]);
      before := [text[0]] + before;
    } else if Blank(text[|text| - 1]) {
      before, after := StripIsExact(text[..|text| - 1]);
      after := after + [text[|text| - 1]];
    } else {
      before, after := "", "";
    }
  }

  /** What a step decides, or that the loop goes on. */
  function Decision(s: StepWorld): Option<Outcome> {
    if s.stoppedBefore then Some(Interrupted)
    else if s.reply.Failure? then Some(Raised)
    else if s.stoppedAfter then Some(Interrupted)
    else if s.reply.NoReply? then Some(EmptyResponse)
    else if s.reply.calls != [] then if StepEscapes(s.tools, s.reply.calls) then Some(Raised) else None
    else if Strip(s.reply.text) == "" then Some(EmptyResponse)
    else Some(Answer(Strip(s.reply.text)))
  }

  /** The number of steps, from step `k` on, that run tools. */
  function ToolSteps(script: nat -> StepWorld, maxSteps: int, k: nat): nat
    decreases maxSteps - k
  {
    if k >= maxSteps || Decision(script(k)).Some? then 0 else 1 + ToolSteps(script, maxSteps, k + 1)
  }

  /** The first decision within the limit. */
  function Decided(script: nat -> StepWorld, maxSteps: int): Outcome {
    var n := ToolSteps(script, maxSteps, 0);
    if n >= maxSteps || Decision(script(n)).None? then StepLimit else Decision(script(n)).value
  }

  predicate Speaks(s: Step) {
    s.Do? && (s.event.Turn? || s.event.Final?)
  }

  /** The turns and answers among the steps of a history, without compaction and pruning. */
  function Spoken(steps: seq<Step>): seq<Event> {
    if steps == [] then [] else Spoken(Front(steps)) + if Speaks(Last(steps)) then [Last(steps).event] else []
  }

  /** One turn for each step that ran tools, with the results that step should record. */
  ghost predicate Turns(script: nat -> StepWorld, spoken: seq<Event>, n: nat) {
    |spoken| >= n
    && forall k :: 0 <= k < n ==>
         script(k).reply.Reply?
         && RightTurn(script(k).tools, script(k).reply.text, script(k).reply.reasoning, script(k).reply.calls,
                      spoken[k])
  }

  /** After `n` turns comes the answer, if there is one, and nothing else. */
  ghost predicate Ends(script: nat -> StepWorld, spoken: seq<Event>, n: nat, outcome: Outcome) {
    if outcome.Answer? then
      && |spoken| == n + 1 && spoken[n].Final? && spoken[n].content == outcome.text
      && script(n).reply.Reply? && spoken[n].reasoning == script(n).reply.reasoning
    else |spoken| == n
  }

  ghost predicate Undecided(script: nat -> StepWorld, k: nat) {
    forall i :: 0 <= i < k ==> Decision(script(i)).None?
  }

  /** The loop left a step because its compaction raised. */
  ghost predicate CutShort(script: nat -> StepWorld, maxSteps: int, c: Config, spoken: seq<Event>, outcome: Outcome) {
    var n := |spoken|;
    && c.minRetain == 0 && outcome.Raised? && Turns(script, spoken, n) && Undecided(script, n)
    && n < maxSteps && !script(n).stoppedBefore && script(n).compact.Some?
  }

  /** What was recorded and how the loop ended are as the first deciding step or the limit says, or it was cut short. */
  ghost predicate Concludes(script: nat -> StepWorld, maxSteps: int, c: Config, spoken: seq<Event>, outcome: Outcome) {
    var n := ToolSteps(script, maxSteps, 0);
    || CutShort(script, maxSteps, c, spoken, outcome)
    || (outcome == Decided(script, maxSteps) && Turns(script, spoken, n) && Ends(script, spoken, n, outcome))
  }

  ghost predicate Quiet(steps: seq<Step>) {
    forall i :: 0 <= i < |steps| ==> !Speaks(steps[i])
  }

  /** A pruning that keeps at least one round and shrinks results longer than so many characters. */
  predicate Prunes(step: Step, keepRounds: int, minChars: int) {
    var keep: nat, threshold: nat := if keepRounds < 1 then 1 else keepRounds, if minChars < 0 then 0 else minChars;
    step == Branch(PruneOutputs(keep, threshold)) || step == Do(Pruning(keep, threshold))
  }

  /** A compaction with the given summary. */
  predicate Compacts(step: Step, c: Config, g: Generated, digest: string, anchor: string, goal: string) {
    match step
    case Branch(Compact(_, c', g', anchor')) => c' == c && g' == g && anchor' == anchor
    case Do(Compacted(c', _, _, g', digest', anchor', goal')) =>
      c' == c && g' == g && digest' == digest && anchor' == anchor && goal' == goal
    case _ => false
  }

  function Pauses(s: StepWorld): nat {
    (if s.prune.Some? then 1 else 0) + if s.compact.Some? then 1 else 0
  }

  /** What goes before a model call: the pruning that is due, then the compaction that is due, and nothing else. */
  predicate DoesWhatIsDue(s: StepWorld, c: Config, steps: seq<Step>) {
    && |steps| == Pauses(s)
    && (s.prune.Some? ==> Prunes(steps[0], s.prune.value.0, s.prune.value.1))
    && (s.compact.Some? ==>
          Compacts(Last(steps), c, s.compact.value.0, s.compact.value.1, s.compact.value.2, s.compact.value.3))
  }

  /** The steps that say nothing. */
  function Silent(steps: seq<Step>): seq<Step> {
    if steps == [] then [] else Silent(Front(steps)) + if Speaks(Last(steps)) then [] else [Last(steps)]
  }

  /** They are what the first `n` steps had due, in order. */
  predicate DueDone(script: nat -> StepWorld, c: Config, silent: seq<Step>, n: nat)
    decreases n
  {
    if n == 0 then silent == []
    else
      var from := |silent| - Pauses(script(n - 1));
      from >= 0 && DoesWhatIsDue(script(n - 1), c, silent[from..]) && DueDone(script, c, silent[..from], n - 1)
  }

  /** Every step that was not interrupted before it began did what it had due. */
  predicate AllDueDone(script: nat -> StepWorld, maxSteps: int, c: Config, steps: seq<Step>, turns: nat) {
    if turns < maxSteps && !script(turns).stoppedBefore then DueDone(script, c, Silent(steps), turns + 1)
    else DueDone(script, c, Silent(steps), turns)
  }

  lemma {:induction false} SilentIsQuiet(steps: seq<Step>, more: seq<Step>)
    requires Quiet(more)
    ensures Silent(steps + more) == Silent(steps) + more
  {
    if more == [] {
      assert steps + more == steps;
    } else {
      SilentIsQuiet(steps, Front(more));
      assert steps + more == steps + Front(more) + [Last(more)];
      SilentNext(steps + Front(more), Last(more));
      hide Silent, Speaks;
      assert !Speaks(more[|more| - 1]);
    }
  }

  lemma SilentNext(steps: seq<Step>, s: Step)
    ensures Silent(steps + [s]) == if Speaks(s) then Silent(steps) else Silent(steps) + [s]
  {
    assert Front(steps + [s]) == steps && Last(steps + [s]) == s;
  }

  lemma SpokenIsNotSilent(steps: seq<Step>, e: Event)
    requires e.Turn? || e.Final?
    ensures Silent(steps + [Do(e)]) == Silent(steps)
  {
    SilentNext(steps, Do(e));
  }

  lemma NothingDue(script: nat -> StepWorld, c: Config)
    ensures DueDone(script, c, Silent([]), 0)
  {
  }

  lemma DueOneMore(script: nat -> StepWorld, c: Config, steps: seq<Step>, more: seq<Step>, n: nat)
    requires DueDone(script, c, Silent(steps), n) && Quiet(more) && DoesWhatIsDue(script(n), c, more)
    ensures DueDone(script, c, Silent(steps + more), n + 1)
  {
    SilentIsQuiet(steps, more);
    hide DoesWhatIsDue;
    var silent := Silent(steps + more);
    assert |more| == Pauses(script(n)) by {
      DueCount(script(n), c, more);
    }
    assert silent[|silent| - |more|..] == more && silent[..|silent| - |more|] == Silent(steps);
  }

  lemma DueCount(s: StepWorld, c: Config, steps: seq<Step>)
    requires DoesWhatIsDue(s, c, steps)
    ensures |steps| == Pauses(s)
  {
  }

  lemma {:induction false} QuietIsUnspoken(steps: seq<Step>, more: seq<Step>)
    requires Quiet(more)
    ensures Spoken(steps + more) == Spoken(steps)
  {
    if more == [] {
      assert steps + more == steps;
    } else {
      QuietIsUnspoken(steps, Front(more));
      assert Front(steps + more) == steps + Front(more) && Last(steps + more) == Last(more);
    }
  }

  lemma {:induction false} StepsReached(script: nat -> StepWorld, maxSteps: int, from: nat, k: nat)
    requires from <= k && (k <= maxSteps || k == from)
    requires forall i :: from <= i < k ==> Decision(script(i)).None?
    ensures ToolSteps(script, maxSteps, from) == k - from + ToolSteps(script, maxSteps, k)
    decreases k - from
  {
    if from == k {
    } else {
      StepsReached(script, maxSteps, from + 1, k);
    }
  }

  /** The turn that an exception left unfinished. */
  ghost predicate Breaks(s: StepWorld, h: History, e: Event, view: History) {
    && s.reply.Reply? && s.reply.calls != []
    && LeftOff(s.tools, h, s.reply.text, s.reply.reasoning, s.reply.calls, e, view)
  }

  lemma RightTurnIsTurn(s: StepWorld, e: Event)
    requires s.reply.Reply? && RightTurn(s.tools, s.reply.text, s.reply.reasoning, s.reply.calls, e)
    ensures e.Turn?
  {
  }

  lemma {:induction false} ResultsAppended(h: History, calls: seq<Call>, ids: seq<Id>, outputs: seq<string>, n: nat)
    requires n <= |calls| && n <= |ids| && n <= |outputs|
    ensures var g := AddResults(h, calls, ids, outputs, n);
            |g.messages| == |h.messages| + n && h.messages <= g.messages
  {
    if n == 0 {
    } else {
      ResultsAppended(h, calls, ids, outputs, n - 1);
    }
  }

  /** What an exception left behind: the call that raised and all after it stand without results. */
  lemma LeftUnanswered(s: StepWorld, h: History, e: Event, view: History)
    requires Fine(h) && Breaks(s, h, e, view)
    ensures !Answered(Emit(view.messages)) && !InOrder(view)
  {
    hide Good, Answered, Emit, InOrder, Calm, Escapes, Fresh, AssistantMessage;
    var m := AssistantMessage(h, e.id, e.content, e.calls, e.reasoning);
    AssistantIs(h, e.id, e.content, e.calls, e.reasoning);
    ResultsAppended(AppendAssistant(h, e.id, e.content, e.calls, e.reasoning), e.calls, e.resultIds, e.outputs,
                    |e.outputs|);
    assert view.messages[|h.messages|] == m;
    Unanswered(view.messages, |h.messages|);
    var p :| Good(h, p);
    GoodStands(h, p);
    hide Standing, Recorded, AddResults, AppendAssistant;
    PartNotInOrder(h, p, e);
  }

  lemma NothingYet(script: nat -> StepWorld)
    ensures Spoken([]) == [] && Turns(script, [], 0)
  {
  }

  /** What a step decides, by the tests the loop makes. */
  lemma DecisionIs(s: StepWorld)
    ensures s.stoppedBefore ==> Decision(s) == Some(Interrupted)
    ensures !s.stoppedBefore && s.reply.Failure? ==> Decision(s) == Some(Raised)
    ensures !s.stoppedBefore && !s.reply.Failure? && s.stoppedAfter ==> Decision(s) == Some(Interrupted)
    ensures !s.stoppedBefore && !s.stoppedAfter && s.reply.NoReply? ==> Decision(s) == Some(EmptyResponse)
    ensures !s.stoppedBefore && !s.stoppedAfter && s.reply.Reply? ==>
              Decision(s) == if s.reply.calls != []
                             then if StepEscapes(s.tools, s.reply.calls) then Some(Raised) else None
                             else if Strip(s.reply.text) == "" then Some(EmptyResponse)
                             else Some(Answer(Strip(s.reply.text)))
  {
    hide Strip, StepEscapes;
  }

  lemma DecidedHere(script: nat -> StepWorld, maxSteps: int, c: Config, spoken: seq<Event>, k: nat, outcome: Outcome)
    requires k < maxSteps && Undecided(script, k) && Decision(script(k)) == Some(outcome)
    requires Turns(script, spoken, k) && Ends(script, spoken, k, outcome)
    ensures Concludes(script, maxSteps, c, spoken, outcome)
  {
    hide Decision, Turns, Ends;
    StepsReached(script, maxSteps, 0, k);
  }

  lemma LimitHere(script: nat -> StepWorld, maxSteps: int, c: Config, spoken: seq<Event>, k: nat)
    requires k >= maxSteps && (k <= maxSteps || k == 0) && Undecided(script, k)
    requires Turns(script, spoken, k) && |spoken| == k
    ensures Concludes(script, maxSteps, c, spoken, StepLimit)
  {
    hide Decision, Turns;
    StepsReached(script, maxSteps, 0, k);
  }

  lemma CutHere(script: nat -> StepWorld, maxSteps: int, c: Config, spoken: seq<Event>, k: nat)
    requires k < maxSteps && Undecided(script, k) && Turns(script, spoken, k) && |spoken| == k
    requires c.minRetain == 0 && !script(k).stoppedBefore && script(k).compact.Some?
    ensures Concludes(script, maxSteps, c, spoken, Raised)
  {
    hide Undecided, Turns;
  }

  lemma UndecidedGrows(script: nat -> StepWorld, k: nat)
    requires Undecided(script, k) && Decision(script(k)).None?
    ensures Undecided(script, k + 1)
  {
  }

  /** One more event leaves the turns before it and may be one more turn. */
  lemma TurnsGrow(script: nat -> StepWorld, spoken: seq<Event>, e: Event, k: nat)
    requires Turns(script, spoken, k) && |spoken| == k
    ensures Turns(script, spoken + [e], k)
    ensures var s := script(k);
            s.reply.Reply? && RightTurn(s.tools, s.reply.text, s.reply.reasoning, s.reply.calls, e) ==>
              Turns(script, spoken + [e], k + 1)
  {
    hide RightTurn;
  }

  class AgentLoop {
    const history: HistoryManager
    const maxSteps: int
    var runLimitHit: bool

    constructor (history: HistoryManager, maxSteps: int)
      ensures this.history == history && this.maxSteps == maxSteps && !runLimitHit
    {
      this.history, this.maxSteps, runLimitHit := history, maxSteps, false;
    }

    /** The steps lead from the history `h`, which was in order, to the present one, which is. */
    ghost predicate Records(h: History, steps: seq<Step>)
      reads history
    {
      AllowedFrom(h, steps) && history.View() == AdvanceAll(h, steps) && Fine(history.View())
    }

    /** Only a retention of no rounds makes compaction raise; then nothing was changed by it. */
    method Compress(s: StepWorld, ghost h: History, ghost steps: seq<Step>)
      returns (raised: bool, ghost more: seq<Step>)
      requires Records(h, steps)
      modifies history
      ensures Records(h, steps + more) && Quiet(more) && DoesWhatIsDue(s, history.config, more)
      ensures raised ==> history.config.minRetain == 0 && s.compact.Some? && !HasForks(history.View())
    {
      hide Records, Prunes, Compacts;
      raised, more := false, [];
      assert steps + more == steps;
      if s.prune.Some? {
        ghost var step := PruneStep(s.prune.value.0, s.prune.value.1, h, steps);
        more := [step];
      }
      if s.compact.Some? {
        var c := s.compact.value;
        ghost var step;
        raised, step := CompactStep(c.0, c.1, c.2, c.3, h, steps + more);
        assert steps + (more + [step]) == steps + more + [step];
        more := more + [step];
      }
    }

    method PruneStep(keep: int, minChars: int, ghost h: History, ghost steps: seq<Step>) returns (ghost step: Step)
      requires Records(h, steps)
      modifies history
      ensures Records(h, steps + [step]) && !Speaks(step) && Prunes(step, keep, minChars)
    {
      hide Prune, Victims, ContextBranch, Fine, AllowedFrom, AdvanceAll, HasForks, ShrinksBulky;
      ghost var before := history.View();
      var pruned := history.PruneToolOutputs(keep, minChars);
      ghost var n: nat, threshold: nat := if keep < 1 then 1 else keep, if minChars < 0 then 0 else minChars;
      step := if HasForks(before) then Branch(PruneOutputs(n, threshold)) else Do(Pruning(n, threshold));
      FineStep(before, step);
      AdvanceMore(h, steps, step);
    }

    /** An overlay after a fork, destructive before the first. */
    method CompactStep(g: Generated, digest: string, anchor: string, goal: string, ghost h: History,
                       ghost steps: seq<Step>)
      returns (raised: bool, ghost step: Step)
      requires Records(h, steps)
      modifies history
      ensures Records(h, steps + [step]) && !Speaks(step)
      ensures Compacts(step, history.config, g, digest, anchor, goal)
      ensures raised ==> history.config.minRetain == 0 && !HasForks(history.View())
    {
      hide CompactLinear, CompactBranch, Fine, AllowedFrom, AdvanceAll, HasForks, Fresh, CompactsBranch, CompactsList;
      ghost var before := history.View();
      var id := history.GenerateId();
      var summaryId := history.GenerateId();
      step := CompactionStep(before, history.config, summaryId, id, g, digest, anchor, goal);
      FineStep(before, step);
      AdvanceMore(h, steps, step);
      RaisesIf(before, history.config, summaryId, id, g, digest, anchor, goal);
      var compressed;
      compressed, raised := history.Compact(id, summaryId, g, digest, anchor, goal);
      if raised {
        SameForks(before, history.View());
      }
    }

    /**
     From any history that a run without splits may reach, the loop records one complete turn for each step that asked
     for tools and ends as the first step that asked for none, or the limit, decides; a configuration that retains no
     rounds may also end it in a destructive compaction. What would then be sent has every call answered, unless an
     exception left a step between the recording of its calls and that of its last result: then it has not.
     */
    method RunSteps(script: nat -> StepWorld)
      returns (outcome: Outcome, ghost steps: seq<Step>, ghost left: Option<Event>)
      requires Fine(history.View())
      requires forall k: nat :: Sane(script(k).tools)
      modifies history, this
      ensures Concludes(script, maxSteps, history.config, Spoken(steps), outcome)
      ensures var turns := |Spoken(steps)| - if outcome.Answer? then 1 else 0;
              turns >= 0 && AllDueDone(script, maxSteps, history.config, steps, turns)
      ensures runLimitHit == (old(runLimitHit) || outcome.StepLimit?)
      ensures left.None? ==>
                && Records(old(history.View()), steps) && InOrder(history.View())
                && (!HasForks(history.View()) ==> Answered(Emit(history.messages)))
      ensures left.Some? ==>
                var h := old(history.View());
                && AllowedFrom(h, steps)
                && Breaks(script(|Spoken(steps)|), AdvanceAll(h, steps), left.value, history.View())
                && !InOrder(history.View()) && !Answered(Emit(history.messages))
    {
      hide Records, Answered, InOrder, Strip, RightTurn, Sane, Concludes, Turns, Decision, Spoken, HasForks;
      hide Fine, AllowedFrom, AdvanceAll, Breaks, Emit, DueDone, DoesWhatIsDue, Silent;
      ghost var h := history.View();
      steps, left := [], None;
      NothingYet(script);
      NothingRecorded(h);
      NothingDue(script, history.config);
      var k := 0;
      while k < maxSteps
        invariant Records(h, steps) && |Spoken(steps)| == k && Turns(script, Spoken(steps), k)
        invariant 0 <= k && (k <= maxSteps || k == 0) && Undecided(script, k)
        invariant DueDone(script, history.config, Silent(steps), k)
        invariant runLimitHit == old(runLimitHit)
      {
        hide Undecided;
        var s := script(k);
        DecisionIs(s);
        if s.stoppedBefore {
          Sendable(h, steps);
          DecidedHere(script, maxSteps, history.config, Spoken(steps), k, Interrupted);
          return Interrupted, steps, None;
        }
        var raised;
        ghost var more;
        raised, more := Compress(s, h, steps);
        QuietIsUnspoken(steps, more);
        DueOneMore(script, history.config, steps, more, k);
        steps := steps + more;
        if raised {
          Sendable(h, steps);
          CutHere(script, maxSteps, history.config, Spoken(steps), k);
          return Raised, steps, None;
        }
        if s.reply.Failure? {
          Sendable(h, steps);
          DecidedHere(script, maxSteps, history.config, Spoken(steps), k, Raised);
          return Raised, steps, None;
        }
        if s.stoppedAfter || s.reply.NoReply? || (s.reply.calls == [] && Strip(s.reply.text) == "") {
          outcome := if s.stoppedAfter then Interrupted else EmptyResponse;
          Sendable(h, steps);
          DecidedHere(script, maxSteps, history.config, Spoken(steps), k, outcome);
          return;
        }
        ghost var before := Spoken(steps);
        ghost var e;
        if s.reply.calls == [] {
          var text := Strip(s.reply.text);
          e := RecordAnswer(text, s.reply.reasoning, h, steps);
          NowSpoken(steps, e);
          SpokenIsNotSilent(steps, e);
          steps := steps + [Do(e)];
          Sendable(h, steps);
          TurnsGrow(script, before, e, k);
          DecidedHere(script, maxSteps, history.config, Spoken(steps), k, Answer(text));
          return Answer(text), steps, None;
        }
        var escaped;
        escaped, e := RecordTurn(s, h, steps);
        if escaped {
          DecidedHere(script, maxSteps, history.config, Spoken(steps), k, Raised);
          return Raised, steps, Some(e);
        }
        NowSpoken(steps, e);
        SpokenIsNotSilent(steps, e);
        steps := steps + [Do(e)];
        TurnsGrow(script, before, e, k);
        UndecidedGrows(script, k);
        k := k + 1;
      }
      LimitHere(script, maxSteps, history.config, Spoken(steps), k);
      Sendable(h, steps);
      runLimitHit := true;
      outcome := StepLimit;
    }

    method RecordAnswer(text: string, reasoning: string, ghost h: History, ghost steps: seq<Step>)
      returns (ghost e: Event)
      requires Records(h, steps)
      modifies history
      ensures Records(h, steps + [Do(e)]) && e.Final? && e.content == text && e.reasoning == reasoning
    {
      hide Fine, AllowedFrom, AdvanceAll, Fresh, AppendAssistant;
      ghost var before := history.View();
      var id := history.GenerateId();
      e := Final(id, text, reasoning);
      history.AddAssistant(id, text, [], reasoning);
      FineStep(before, Do(e));
      AdvanceMore(h, steps, Do(e));
    }

    method RecordTurn(s: StepWorld, ghost h: History, ghost steps: seq<Step>) returns (escaped: bool, ghost e: Event)
      requires Records(h, steps) && s.reply.Reply? && s.reply.calls != [] && Sane(s.tools)
      modifies history
      ensures escaped == StepEscapes(s.tools, s.reply.calls)
      ensures !escaped ==>
                && e.Turn? && Records(h, steps + [Do(e)])
                && RightTurn(s.tools, s.reply.text, s.reply.reasoning, s.reply.calls, e)
      ensures escaped ==>
                && AllowedFrom(h, steps) && Breaks(s, AdvanceAll(h, steps), e, history.View())
                && !InOrder(history.View()) && !Answered(Emit(history.messages))
    {
      hide StepEscapes, RightTurn, Sane, Answered, InOrder, LeftOff, Fine, AllowedFrom, AdvanceAll, After, Fits;
      ghost var before := history.View();
      escaped, e := ExecuteStepTools(history, s.tools, s.reply.calls, s.reply.text, s.reply.reasoning);
      if escaped {
        LeftUnanswered(s, before, e, history.View());
      } else {
        RightTurnIsTurn(s, e);
        FineStep(before, Do(e));
        AdvanceMore(h, steps, Do(e));
      }
    }

    lemma NothingRecorded(h: History)
      requires h == history.View() && Fine(h)
      ensures Records(h, [])
    {
      hide Fine;
    }

    lemma Sendable(h: History, steps: seq<Step>)
      requires Records(h, steps)
      ensures InOrder(history.View()) && (!HasForks(history.View()) ==> Answered(Emit(history.messages)))
    {
      hide Fine, InOrder, Answered, AllowedFrom, AdvanceAll, HasForks;
      FineIsInOrder(history.View());
    }
  }

  /** The step a compaction makes of a history. */
  function CompactionStep(h: History, c: Config, summaryId: Id, id: Id, g: Generated, digest: string, anchor: string,
                          goal: string): Step
  {
    if HasForks(h) then Branch(HistoryTree.Compact(id, c, g, anchor))
    else Do(Compacted(c, summaryId, id, g, digest, anchor, goal))
  }

  lemma RaisesIf(h: History, c: Config, s: Id, id: Id, g: Generated, digest: string, anchor: string, goal: string)
    ensures var r := CompactLinear(h, c, s, id, g, digest, anchor, goal);
            && (r.Err? && r.error.1.OutOfRange? ==> c.minRetain == 0)
            && (r.Err? ==> r.error.0.entries == h.entries)
  {
    hide UserIndexes, SelectSummaries, WithAnchor, WithDigest;
  }

  lemma NowSpoken(steps: seq<Step>, e: Event)
    requires e.Turn? || e.Final?
    ensures Spoken(steps + [Do(e)]) == Spoken(steps) + [e]
  {
    assert Front(steps + [Do(e)]) == steps && Last(steps + [Do(e)]) == Do(e);
  }
}
