/**
 internal/investigate/investigate.go, `runLoop`: a tool-use loop against a model
 that may answer anything.  A conversation is a function of the tool results sent
 so far, which covers every behaviour a live session can show in one run.
 */
module Investigation {
  import opened Basics
  import opened Scope

  const MAX_TOOL_CALLS: nat := 8
  const MAX_TURNS: nat := 6
  const BLANK := Input("", "", "", "", "", "")

  datatype Reply = Reply(text: string, calls: seq<ToolCall>, done: bool, truncated: bool)

  /** A round trip fails or returns a reply. */
  datatype Answer = Failed | Replied(reply: Reply)

  /** The model's answers, as a function of the batches of results it was sent. */
  datatype Conversation = Conversation(
    start: Answer,
    next: seq<seq<ToolResult>> -> Answer,
    conclude: seq<seq<ToolResult>> -> Answer)

  datatype Narrative = Narrative(text: string, trail: seq<string>, truncated: bool)

  /** One reply's calls and the batch of results sent back for them. */
  datatype Exchange = Exchange(calls: seq<ToolCall>, results: seq<ToolResult>)

  /** A reader of calls: the count of calls executed before, the call, and the scope it may grow. */
  type Executor = (nat, ToolCall, set<ScopeKey>) -> Effect

  /** The cluster reader as an executor. */
  function ReaderOf(w: World): (f: Executor) { (n: nat, c: ToolCall, allowed: set<ScopeKey>) => Execute(w, n, c, allowed) }

  /** The scope an executor leaves after a sequence of calls. */
  function ScopeBy(exec: Executor, calls: seq<ToolCall>, allowed: set<ScopeKey>): (s: set<ScopeKey>) {
    if calls == [] then allowed
    else
      var n := |calls| - 1;
      exec(n, calls[n], ScopeBy(exec, calls[..n], allowed)).allowed
  }

  lemma {:induction false} ReaderScope(w: World, calls: seq<ToolCall>, allowed: set<ScopeKey>)
    ensures ScopeBy(ReaderOf(w), calls, allowed) == ScopeAfter(w, calls, allowed)
  {
    if calls != [] {
      ReaderScope(w, calls[..|calls| - 1], allowed);
    }
  }

  /** The evidence-trail line of a call; arguments that do not decode print as blanks. */
  function Label(c: ToolCall): (s: string) {
    var m := if c.input.Some? then c.input.value else BLANK;
    if c.name == "describe" then "describe " + m.kind + " " + m.namespace + "/" + m.name
    else if c.name == "get_events" then "events " + m.namespace + "/" + m.name
    else if c.name == "get_related" then "related " + m.namespace + "/" + m.name + "\U{2192}" + m.relation
    else if c.name == "get_log_causes" then "log causes " + m.namespace + "/" + m.pod + " container " + m.container
    else c.name
  }

  function Budgeted(calls: seq<ToolCall>): (r: seq<ToolCall>)
    ensures |r| <= MAX_TOOL_CALLS && r <= calls
  {
    if |calls| > MAX_TOOL_CALLS then calls[..MAX_TOOL_CALLS] else calls
  }

  /** All calls the model requested, in order. */
  function Requested(log: seq<Exchange>): (r: seq<ToolCall>) {
    if log == [] then [] else Requested(log[..|log| - 1]) + log[|log| - 1].calls
  }

  function Sent(log: seq<Exchange>): (r: seq<seq<ToolResult>>)
    ensures |r| == |log|
  {
    if log == [] then [] else Sent(log[..|log| - 1]) + [log[|log| - 1].results]
  }

  /**
   The result of call i of a reply when `before` had been requested earlier: the
   call's own result while the budget lasts, a refusal after that.
   */
  function ResultAt(exec: Executor, seeds: set<ScopeKey>, before: seq<ToolCall>, calls: seq<ToolCall>, i: nat): (r: ToolResult)
    requires i < |calls|
  {
    var n := |before| + i;
    if n >= MAX_TOOL_CALLS then ToolResult(calls[i].id, true)
    else ToolResult(calls[i].id, exec(n, calls[i], ScopeBy(exec, before + calls[..i], seeds)).isError)
  }

  /** The results answer the reply's calls one for one, in order. */
  ghost predicate Answers(exec: Executor, seeds: set<ScopeKey>, before: seq<ToolCall>, e: Exchange) {
    |e.results| == |e.calls| && forall i :: 0 <= i < |e.calls| ==> e.results[i] == ResultAt(exec, seeds, before, e.calls, i)
  }

  /** The reply that the k-th exchange answers. */
  function ReplyTo(conv: Conversation, log: seq<Exchange>): (a: Answer) {
    if log == [] then conv.start else conv.next(Sent(log))
  }

  /** The k-th exchange takes up the model's last reply and answers it fully. */
  ghost predicate ExchangeAt(conv: Conversation, exec: Executor, seeds: set<ScopeKey>, log: seq<Exchange>, k: nat)
    requires k < |log|
  {
    && ReplyTo(conv, log[..k]).Replied?
    && log[k].calls == ReplyTo(conv, log[..k]).reply.calls
    && Answers(exec, seeds, Requested(log[..k]), log[k])
  }

  ghost predicate IsTranscript(conv: Conversation, exec: Executor, seeds: set<ScopeKey>, log: seq<Exchange>) {
    forall k {:trigger ExchangeAt(conv, exec, seeds, log, k)} :: 0 <= k < |log| ==> ExchangeAt(conv, exec, seeds, log, k)
  }

  /** What one run of the loop leaves behind. */
  ghost predicate IsRun(conv: Conversation, exec: Executor, seeds: set<ScopeKey>, log: seq<Exchange>, allowed: set<ScopeKey>,
                        executed: seq<ToolCall>)
  {
    && IsTranscript(conv, exec, seeds, log)
    && executed == Budgeted(Requested(log))
    && allowed == ScopeBy(exec, executed, seeds)
  }

  /** Where a batch stands after its first i calls. */
  ghost predicate BatchAt(exec: Executor, seeds: set<ScopeKey>, before: seq<ToolCall>, calls: seq<ToolCall>, i: nat,
                          results: seq<ToolResult>, trail: seq<string>, allowed: set<ScopeKey>)
  {
    && i <= |calls| && |results| == i && (forall j :: 0 <= j < i ==> results[j] == ResultAt(exec, seeds, before, calls, j))
    && var executed := Budgeted(before + calls[..i]);
       allowed == ScopeBy(exec, executed, seeds) && trail == Map(Label, executed)
  }

  lemma {:induction false} BatchStarts(exec: Executor, seeds: set<ScopeKey>, before: seq<ToolCall>, calls: seq<ToolCall>,
                                       trail: seq<string>, allowed: set<ScopeKey>)
    requires allowed == ScopeBy(exec, Budgeted(before), seeds) && trail == Map(Label, Budgeted(before))
    ensures BatchAt(exec, seeds, before, calls, 0, [], trail, allowed)
  {
    assert before + calls[..0] == before;
  }

  lemma {:induction false} BatchEnds(exec: Executor, seeds: set<ScopeKey>, before: seq<ToolCall>, calls: seq<ToolCall>,
                                     results: seq<ToolResult>, trail: seq<string>, allowed: set<ScopeKey>)
    requires BatchAt(exec, seeds, before, calls, |calls|, results, trail, allowed)
    ensures Answers(exec, seeds, before, Exchange(calls, results))
    ensures allowed == ScopeBy(exec, Budgeted(before + calls), seeds) && trail == Map(Label, Budgeted(before + calls))
  {
    assert calls[..|calls|] == calls;
  }

  /** A call past the budget is refused; nothing else changes. */
  lemma {:induction false} BatchRefuses(exec: Executor, seeds: set<ScopeKey>, before: seq<ToolCall>, calls: seq<ToolCall>, i: nat,
                                        results: seq<ToolResult>, trail: seq<string>, allowed: set<ScopeKey>)
    requires BatchAt(exec, seeds, before, calls, i, results, trail, allowed) && i < |calls| && |trail| >= MAX_TOOL_CALLS
    ensures BatchAt(exec, seeds, before, calls, i + 1, results + [ToolResult(calls[i].id, true)], trail, allowed)
  {
    assert before + calls[..i + 1] == (before + calls[..i]) + [calls[i]];
    assert Budgeted(before + calls[..i + 1]) == Budgeted(before + calls[..i]);
  }

  /** A call within the budget is recorded, executed and answered. */
  lemma {:induction false} BatchExecutes(exec: Executor, seeds: set<ScopeKey>, before: seq<ToolCall>, calls: seq<ToolCall>, i: nat,
                                         results: seq<ToolResult>, trail: seq<string>, allowed: set<ScopeKey>, e: Effect)
    requires BatchAt(exec, seeds, before, calls, i, results, trail, allowed) && i < |calls| && |trail| < MAX_TOOL_CALLS
    requires e == exec(|trail|, calls[i], allowed)
    ensures BatchAt(exec, seeds, before, calls, i + 1, results + [ToolResult(calls[i].id, e.isError)],
                    trail + [Label(calls[i])], e.allowed)
  {
    var done := before + calls[..i];
    assert before + calls[..i + 1] == done + [calls[i]];
    OneMoreCall(exec, done, calls[i], seeds);
  }

  lemma {:induction false} OneMoreCall(exec: Executor, done: seq<ToolCall>, c: ToolCall, seeds: set<ScopeKey>)
    requires |done| < MAX_TOOL_CALLS
    ensures Budgeted(done) == done && Budgeted(done + [c]) == done + [c]
    ensures ScopeBy(exec, done + [c], seeds) == exec(|done|, c, ScopeBy(exec, done, seeds)).allowed
    ensures Map(Label, done + [c]) == Map(Label, done) + [Label(c)]
  {
    assert (done + [c])[..|done|] == done;
  }

  /** The calls of one reply. */
  method RunBatch(w: World, scope: ScopeSet, calls: seq<ToolCall>, trail0: seq<string>,
                  ghost seeds: set<ScopeKey>, ghost before: seq<ToolCall>)
    returns (results: seq<ToolResult>, trail: seq<string>)
    requires scope.allowed == ScopeBy(ReaderOf(w), Budgeted(before), seeds) && trail0 == Map(Label, Budgeted(before))
    modifies scope
    ensures Answers(ReaderOf(w), seeds, before, Exchange(calls, results))
    ensures scope.allowed == ScopeBy(ReaderOf(w), Budgeted(before + calls), seeds) && trail == Map(Label, Budgeted(before + calls))
  {
    results, trail := [], trail0;
    BatchStarts(ReaderOf(w), seeds, before, calls, trail, scope.allowed);
    for i := 0 to |calls|
      invariant BatchAt(ReaderOf(w), seeds, before, calls, i, results, trail, scope.allowed)
    {
      if |trail| >= MAX_TOOL_CALLS {
        BatchRefuses(ReaderOf(w), seeds, before, calls, i, results, trail, scope.allowed);
        results := results + [ToolResult(calls[i].id, true)];
        continue;
      }
      ghost var allowed := scope.allowed;
      var res, access := Run(w, |trail|, calls[i], scope);
      BatchExecutes(ReaderOf(w), seeds, before, calls, i, results, trail, allowed, Effect(res.isError, scope.allowed, access));
      assert res == ToolResult(calls[i].id, res.isError);
      trail := trail + [Label(calls[i])];
      results := results + [res];
    }
    BatchEnds(ReaderOf(w), seeds, before, calls, results, trail, scope.allowed);
  }

  /** A fully answered reply extends the run. */
  lemma {:induction false} RunGrows(conv: Conversation, exec: Executor, seeds: set<ScopeKey>, log: seq<Exchange>, e: Exchange,
                                    allowed: set<ScopeKey>)
    requires IsTranscript(conv, exec, seeds, log) && ReplyTo(conv, log).Replied? && e.calls == ReplyTo(conv, log).reply.calls
    requires Answers(exec, seeds, Requested(log), e)
    requires allowed == ScopeBy(exec, Budgeted(Requested(log) + e.calls), seeds)
    ensures Requested(log + [e]) == Requested(log) + e.calls && Sent(log + [e]) == Sent(log) + [e.results]
    ensures IsRun(conv, exec, seeds, log + [e], allowed, Budgeted(Requested(log) + e.calls))
  {
    var log' := log + [e];
    assert log'[..|log|] == log;
    forall k | 0 <= k < |log'| ensures ExchangeAt(conv, exec, seeds, log', k) {
      if k < |log| {
        assert ExchangeAt(conv, exec, seeds, log, k);
        assert log'[..k] == log[..k];
      }
    }
  }

  /** Where a finished loop stands: the model stopped asking, or it was told to conclude. */
  ghost predicate IsEnding(conv: Conversation, log: seq<Exchange>, concluded: bool, out: Option<Narrative>) {
    var last := if concluded then conv.conclude(Sent(log)) else ReplyTo(conv, log);
    && (out.None? <==> last.Failed?)
    && (out.Some? ==> out.value.text == TrimSpace(last.reply.text) && out.value.truncated == last.reply.truncated)
    && (out.Some? && !concluded ==> last.reply.done || last.reply.calls == [])
  }

  /**
   runLoop.  `log` is the transcript, `executed` the calls that reached the
   reader, `trips` counts the model round trips (at most seven); a conclude round
   trip is made exactly when a bound was hit.
   */
  method RunLoop(conv: Conversation, w: World, scope: ScopeSet)
    returns (out: Option<Narrative>, ghost log: seq<Exchange>, ghost executed: seq<ToolCall>, ghost concluded: bool,
             ghost trips: nat)
    modifies scope
    ensures IsRun(conv, ReaderOf(w), old(scope.allowed), log, scope.allowed, executed)
    ensures out.Some? ==> out.value.trail == Map(Label, executed)
    ensures IsEnding(conv, log, concluded, out)
    ensures concluded ==> |executed| == MAX_TOOL_CALLS || |log| == MAX_TURNS
    ensures !concluded ==> |executed| < MAX_TOOL_CALLS && |log| < MAX_TURNS
    ensures |log| <= MAX_TURNS && trips == 1 + |log|
  {
    log, executed, concluded := [], [], false;
    ghost var seeds := scope.allowed;
    var sent: seq<seq<ToolResult>> := [];
    var trail: seq<string> := [];
    var rep := conv.start;
    trips := 1;
    var turn := 1;
    while true
      invariant turn == trips == |log| + 1 <= MAX_TURNS && sent == Sent(log) && rep == ReplyTo(conv, log)
      invariant IsRun(conv, ReaderOf(w), seeds, log, scope.allowed, executed)
      invariant trail == Map(Label, executed) && |executed| < MAX_TOOL_CALLS && !concluded
      decreases MAX_TURNS - turn
    {
      if rep.Failed? {
        return None, log, executed, false, trips;
      }
      if rep.reply.done || |rep.reply.calls| == 0 {
        return Some(Narrative(TrimSpace(rep.reply.text), trail, rep.reply.truncated)), log, executed, false, trips;
      }
      var results;
      results, trail := RunBatch(w, scope, rep.reply.calls, trail, seeds, Requested(log));
      RunGrows(conv, ReaderOf(w), seeds, log, Exchange(rep.reply.calls, results), scope.allowed);
      executed := Budgeted(Requested(log) + rep.reply.calls);
      log := log + [Exchange(rep.reply.calls, results)];
      sent := sent + [results];
      if |trail| >= MAX_TOOL_CALLS || turn >= MAX_TURNS {
        var last := conv.conclude(sent);
        concluded, trips := true, trips + 1;
        if last.Failed? {
          return None, log, executed, true, trips;
        }
        return Some(Narrative(TrimSpace(last.reply.text), trail, last.reply.truncated)), log, executed, true, trips;
      }
      rep := conv.next(sent);
      trips := trips + 1;
      turn := turn + 1;
    }
  }

  /** Every call of a reply has its own result, in the reply's order. */
  ghost predicate SameIds(e: Exchange) {
    |e.results| == |e.calls| && forall i :: 0 <= i < |e.calls| ==> e.results[i].id == e.calls[i].id
  }

  /**
   Over every conversation: at most eight calls reach the reader, they are the
   first eight requested, every call of every reply gets its own answer, and
   every read had been reached from the seeds by the calls before it.
   */
  lemma {:induction false} RunIsBounded(conv: Conversation, w: World, seeds: set<ScopeKey>, log: seq<Exchange>,
                                        allowed: set<ScopeKey>, executed: seq<ToolCall>)
    requires IsRun(conv, ReaderOf(w), seeds, log, allowed, executed)
    ensures |executed| <= MAX_TOOL_CALLS && executed <= Requested(log)
    ensures seeds <= allowed && forall k :: k in allowed <==> Reached(w, executed, seeds, k, |executed|)
    ensures forall n :: 0 <= n < |executed| ==>
      var e := Execute(w, n, executed[n], ScopeAfter(w, executed[..n], seeds));
      e.access.Some? ==> SafeAccess(w, executed, seeds, n, e.access.value)
    ensures forall k :: 0 <= k < |log| ==> SameIds(log[k])
  {
    ReaderScope(w, executed, seeds);
    assert executed[..|executed|] == executed;
    forall k ensures k in allowed <==> Reached(w, executed, seeds, k, |executed|) {
      ScopeIsReached(w, executed, seeds, |executed|, k);
    }
    forall k | k in seeds ensures k in allowed {
      assert Reached(w, executed, seeds, k, |executed|);
    }
    forall k | 0 <= k < |log| ensures SameIds(log[k]) {
      assert ExchangeAt(conv, ReaderOf(w), seeds, log, k);
    }
    forall n | 0 <= n < |executed|
      ensures var e := Execute(w, n, executed[n], ScopeAfter(w, executed[..n], seeds));
        e.access.Some? ==> SafeAccess(w, executed, seeds, n, e.access.value)
    {
      EveryReadWasReached(w, executed, seeds, n);
    }
  }
}
