/**
 internal/alert/sink.go as an interleaving of atomic steps: any number of callers
 inside `Enqueue`, one sender goroutine, and the clock.  Every `select`, every
 POST and every locked counter update is one step; what a POST returns, when the
 context is cancelled and who runs next are up to the scheduler.

 Beside the program state a `State` carries history that the program does not
 have (everything ever accepted, inserted, removed and recorded), so that the
 guarantees can be stated about whole runs.
 */
module AlertSink {
  import opened AlertState
  import opened Basics

  const QUEUE_SIZE: nat := 64
  const ATTEMPTS: nat := 3

  /** Where a caller is inside Enqueue. */
  datatype Caller =
    | Idle
    | Arrived(note: Notification)                          // before the first select
    | FoundFull(note: Notification)                        // before the second select
    | Counting(note: Notification, dropped: Notification)  // removed the oldest, not counted yet
    | MadeRoom(note: Notification)                         // before the third select
    | CountingSelf(note: Notification)                     // its own notification is lost, not counted yet

  /** Where the sender goroutine is. */
  datatype Sender =
    | NotStarted
    | Waiting
    | Encoding(note: Notification)
    | Posting(note: Notification, attempt: nat)
    | Backoff(note: Notification, attempt: nat)
    | Recording(note: Notification, ok: bool, exhausted: bool)
    | CountingExhausted
    | Stopped

  datatype Stats = Stats(firingOK: nat, firingFailed: nat, resolvedOK: nat, resolvedFailed: nat,
                         droppedQueueFull: nat, droppedRetriesExhausted: nat)

  datatype Outcome = Outcome(note: Notification, ok: bool, exhausted: bool)

  datatype State = State(
    queue: seq<Notification>, callers: seq<Caller>, sender: Sender, cancelled: bool, stats: Stats,
    accepted: multiset<Notification>,  // handed to Enqueue
    inserted: seq<Notification>,       // sent into the channel, in order
    received: nat,                     // how many of those have been received from it
    taken: seq<Notification>,          // received by the sender, in order
    takenAt: seq<nat>,                 // their positions in `inserted`
    dropped: seq<Notification>,        // received by a caller as the oldest
    refused: seq<Notification>,        // lost at the third select
    outcomes: seq<Outcome>)            // recorded deliveries, in order

  datatype Answer = Accepted | Rejected | ServerError | TransportError

  datatype Event =
    | Start
    | Cancel
    | Call(who: nat, note: Notification)
    | Try(who: nat)
    | DropOldest(who: nat)
    | CountDrop(who: nat)
    | Retry(who: nat)
    | CountSelf(who: nat)
    | Stop
    | Take
    | Encode(fine: bool)
    | Post(answer: Answer)
    | Wake
    | GiveUp
    | Settle
    | CountExhausted

  function Init(callers: nat): (s: State) {
    State([], seq(callers, _ => Idle), NotStarted, false, Stats(0, 0, 0, 0, 0, 0),
          multiset{}, [], 0, [], [], [], [], [])
  }

  // ---- the steps; None when a step is not enabled

  function CallerStep(s: State, who: nat, e: Event): (r: Option<State>)
    requires who < |s.callers|
  {
    var c := s.callers[who];
    match e
    case Call(_, n) =>
      if !c.Idle? then None
      else Some(s.(callers := s.callers[who := Arrived(n)], accepted := s.accepted + multiset{n}))
    case Try(_) =>
      if !c.Arrived? then None
      else if |s.queue| < QUEUE_SIZE then Some(Insert(s, who, c.note))
      else Some(s.(callers := s.callers[who := FoundFull(c.note)]))
    case DropOldest(_) =>
      if !c.FoundFull? then None
      else if s.queue == [] then Some(s.(callers := s.callers[who := MadeRoom(c.note)]))
      else Some(s.(callers := s.callers[who := Counting(c.note, s.queue[0])],
                   queue := s.queue[1..], received := s.received + 1, dropped := s.dropped + [s.queue[0]]))
    case CountDrop(_) =>
      if !c.Counting? then None
      else Some(s.(callers := s.callers[who := MadeRoom(c.note)],
                   stats := s.stats.(droppedQueueFull := s.stats.droppedQueueFull + 1)))
    case Retry(_) =>
      if !c.MadeRoom? then None
      else if |s.queue| < QUEUE_SIZE then Some(Insert(s, who, c.note))
      else Some(s.(callers := s.callers[who := CountingSelf(c.note)], refused := s.refused + [c.note]))
    case CountSelf(_) =>
      if !c.CountingSelf? then None
      else Some(s.(callers := s.callers[who := Idle],
                   stats := s.stats.(droppedQueueFull := s.stats.droppedQueueFull + 1)))
    case _ => None
  }

  function Insert(s: State, who: nat, n: Notification): (r: State)
    requires who < |s.callers|
  {
    s.(callers := s.callers[who := Idle], queue := s.queue + [n], inserted := s.inserted + [n])
  }

  function Recorded(stats: Stats, n: Notification, ok: bool): (r: Stats) {
    match (n.status, ok)
    case (Resolved, true) => stats.(resolvedOK := stats.resolvedOK + 1)
    case (Resolved, false) => stats.(resolvedFailed := stats.resolvedFailed + 1)
    case (Firing, true) => stats.(firingOK := stats.firingOK + 1)
    case (Firing, false) => stats.(firingFailed := stats.firingFailed + 1)
  }

  /** After one attempt: done, rejected for good, out of attempts, or a pause. */
  function AfterPost(n: Notification, attempt: nat, answer: Answer): (r: Sender) {
    match answer
    case Accepted => Recording(n, true, false)
    case Rejected => Recording(n, false, false)
    case _ => if attempt == ATTEMPTS then Recording(n, false, true) else Backoff(n, attempt)
  }

  function SenderStep(s: State, e: Event): (r: Option<State>) {
    var x := s.sender;
    match e
    case Start => if x.NotStarted? then Some(s.(sender := Waiting)) else None
    case Stop => if x.Waiting? && s.cancelled then Some(s.(sender := Stopped)) else None
    case Take =>
      if !x.Waiting? || s.queue == [] then None
      else Some(s.(sender := Encoding(s.queue[0]), queue := s.queue[1..], received := s.received + 1,
                   taken := s.taken + [s.queue[0]], takenAt := s.takenAt + [s.received]))
    case Encode(fine) =>
      if !x.Encoding? then None
      else Some(s.(sender := if fine then Posting(x.note, 1) else Recording(x.note, false, false)))
    case Post(answer) =>
      if x.Posting? then Some(s.(sender := AfterPost(x.note, x.attempt, answer))) else None
    case Wake => if x.Backoff? then Some(s.(sender := Posting(x.note, x.attempt + 1))) else None
    case GiveUp =>
      if x.Backoff? && s.cancelled then Some(s.(sender := Recording(x.note, false, false))) else None
    case Settle =>
      if !x.Recording? then None
      else Some(s.(sender := if x.exhausted then CountingExhausted else Waiting,
                   stats := Recorded(s.stats, x.note, x.ok),
                   outcomes := s.outcomes + [Outcome(x.note, x.ok, x.exhausted)]))
    case CountExhausted =>
      if !x.CountingExhausted? then None
      else Some(s.(sender := Waiting,
                   stats := s.stats.(droppedRetriesExhausted := s.stats.droppedRetriesExhausted + 1)))
    case _ => None
  }

  predicate IsCallerEvent(e: Event) {
    e.Call? || e.Try? || e.DropOldest? || e.CountDrop? || e.Retry? || e.CountSelf?
  }

  function Next(s: State, e: Event): (r: Option<State>) {
    if e.Cancel? then Some(s.(cancelled := true))
    else if IsCallerEvent(e) then (if e.who < |s.callers| then CallerStep(s, e.who, e) else None)
    else SenderStep(s, e)
  }

  /** The state a schedule leads to, if every step of it is enabled. */
  function Run(s: State, events: seq<Event>): (r: Option<State>)
    decreases |events|
  {
    if events == [] then Some(s)
    else match Next(s, events[0])
      case None => None
      case Some(next) => Run(next, events[1..])
  }

  // ---- what callers and sender still hold

  /** The notification a caller holds that is neither in the channel nor lost. */
  function HeldBy(c: Caller): (n: seq<Notification>) {
    match c
    case Idle => []
    case CountingSelf(_) => []
    case _ => [c.note]
  }

  ghost function Held(callers: seq<Caller>): multiset<Notification> {
    if callers == [] then multiset{} else multiset(HeldBy(callers[0])) + Held(callers[1..])
  }

  function Uncounted1(c: Caller): nat { if c.Counting? || c.CountingSelf? then 1 else 0 }

  /** Drops that happened but are not in the counter yet. */
  function Uncounted(callers: seq<Caller>): nat {
    if callers == [] then 0 else Uncounted1(callers[0]) + Uncounted(callers[1..])
  }

  function InFlight(sender: Sender): (n: seq<Notification>) {
    if sender.Encoding? || sender.Posting? || sender.Backoff? || sender.Recording? then [sender.note] else []
  }

  lemma {:induction false} HeldUpdate(callers: seq<Caller>, i: nat, c: Caller)
    requires i < |callers|
    ensures Held(callers[i := c]) + multiset(HeldBy(callers[i])) == Held(callers) + multiset(HeldBy(c))
  {
    var after := callers[i := c];
    if i == 0 {
      assert after[1..] == callers[1..];
      SwapHeads(multiset(HeldBy(c)), multiset(HeldBy(callers[0])), Held(callers[1..]));
    } else {
      HeldUpdate(callers[1..], i - 1, c);
      assert after[1..] == callers[1..][i - 1 := c];
      AddToBoth(multiset(HeldBy(callers[0])), Held(after[1..]), multiset(HeldBy(callers[i])),
                Held(callers[1..]), multiset(HeldBy(c)));
    }
  }

  lemma {:induction false} SwapHeads(a: multiset<Notification>, b: multiset<Notification>, rest: multiset<Notification>)
    ensures (a + rest) + b == (b + rest) + a
  {
  }

  lemma {:induction false} AddToBoth(first: multiset<Notification>, a: multiset<Notification>, b: multiset<Notification>,
                  c: multiset<Notification>, d: multiset<Notification>)
    requires a + b == c + d
    ensures (first + a) + b == (first + c) + d
  {
    assert (first + a) + b == first + (a + b);
    assert (first + c) + d == first + (c + d);
  }

  /** The books balance after a step that moves one caller's notification. */
  lemma {:induction false} Balance(accepted: multiset<Notification>, inserted: multiset<Notification>, refused: multiset<Notification>,
                held: multiset<Notification>, held': multiset<Notification>,
                mine: multiset<Notification>, mine': multiset<Notification>,
                arriving: multiset<Notification>, inserting: multiset<Notification>, refusing: multiset<Notification>)
    requires accepted == inserted + refused + held
    requires held' + mine == held + mine'
    requires arriving + mine == inserting + refusing + mine'
    ensures accepted + arriving == (inserted + inserting) + (refused + refusing) + held'
  {
    forall x ensures (accepted + arriving)[x] == ((inserted + inserting) + (refused + refusing) + held')[x] {
      assert accepted[x] == (inserted + refused + held)[x];
      assert (held' + mine)[x] == (held + mine')[x];
      assert (arriving + mine)[x] == (inserting + refusing + mine')[x];
    }
  }

  lemma {:induction false} UncountedUpdate(callers: seq<Caller>, i: nat, c: Caller)
    requires i < |callers|
    ensures Uncounted(callers[i := c]) + Uncounted1(callers[i]) == Uncounted(callers) + Uncounted1(c)
  {
    var after := callers[i := c];
    if i == 0 {
      assert after[1..] == callers[1..];
    } else {
      UncountedUpdate(callers[1..], i - 1, c);
      assert after[1..] == callers[1..][i - 1 := c];
    }
  }

  lemma {:induction false} IdleHoldsNothing(callers: seq<Caller>)
    requires forall i :: 0 <= i < |callers| ==> callers[i] == Idle
    ensures Held(callers) == multiset{} && Uncounted(callers) == 0
  {
    if callers != [] {
      IdleHoldsNothing(callers[1..]);
    }
  }

  // ---- what the recorded deliveries add up to

  /** The recorded outcomes of one class. */
  ghost function Class(outcomes: seq<Outcome>, status: Status, ok: bool): set<int> {
    set i | 0 <= i < |outcomes| && outcomes[i].note.status == status && outcomes[i].ok == ok
  }

  ghost function Exhausted(outcomes: seq<Outcome>): set<int> {
    set i | 0 <= i < |outcomes| && outcomes[i].exhausted
  }

  lemma {:induction false} ClassAppend(outcomes: seq<Outcome>, o: Outcome, status: Status, ok: bool)
    ensures |Class(outcomes + [o], status, ok)|
         == |Class(outcomes, status, ok)| + (if o.note.status == status && o.ok == ok then 1 else 0)
  {
    var before, after := Class(outcomes, status, ok), Class(outcomes + [o], status, ok);
    assert after == if o.note.status == status && o.ok == ok then before + {|outcomes|} else before;
  }

  lemma {:induction false} ExhaustedAppend(outcomes: seq<Outcome>, o: Outcome)
    ensures |Exhausted(outcomes + [o])| == |Exhausted(outcomes)| + (if o.exhausted then 1 else 0)
  {
    var before, after := Exhausted(outcomes), Exhausted(outcomes + [o]);
    assert after == if o.exhausted then before + {|outcomes|} else before;
  }

  // ---- the invariants

  /** The channel is a bounded FIFO: what is queued is what went in and has not come out. */
  ghost predicate Fifo(s: State) {
    |s.queue| <= QUEUE_SIZE && s.received <= |s.inserted| && s.inserted[s.received..] == s.queue
  }

  /** Everything received went to the sender or was dropped. */
  ghost predicate NoneLostInside(s: State) {
    && s.received <= |s.inserted|
    && multiset(s.inserted[..s.received]) == multiset(s.taken) + multiset(s.dropped)
  }

  /** Nothing handed to Enqueue disappears before the channel. */
  ghost predicate NoneLostOnEntry(s: State) {
    s.accepted == multiset(s.inserted) + multiset(s.refused) + Held(s.callers)
  }

  /** xs appears in ys in order, at the positions in `at`. */
  ghost predicate IsSubsequence(xs: seq<Notification>, ys: seq<Notification>, at: seq<nat>) {
    && |at| == |xs|
    && (forall i :: 0 <= i < |at| ==> at[i] < |ys| && ys[at[i]] == xs[i])
    && (forall i, j :: 0 <= i < j < |at| ==> at[i] < at[j])
  }

  ghost predicate TakenInOrder(s: State) {
    && IsSubsequence(s.taken, s.inserted, s.takenAt)
    && forall i :: 0 <= i < |s.takenAt| ==> s.takenAt[i] < s.received
  }

  /** Everything the sender took is recorded once, in order, or is in flight. */
  ghost predicate RecordedOnce(s: State) {
    && |s.taken| == |s.outcomes| + |InFlight(s.sender)|
    && (forall i :: 0 <= i < |s.outcomes| ==> s.outcomes[i].note == s.taken[i])
    && (InFlight(s.sender) != [] ==> InFlight(s.sender)[0] == s.taken[|s.outcomes|])
  }

  /** At most three attempts, and only a failed delivery runs out of them. */
  ghost predicate AttemptsBounded(s: State) {
    && (s.sender.Posting? ==> 1 <= s.sender.attempt <= ATTEMPTS)
    && (s.sender.Backoff? ==> 1 <= s.sender.attempt < ATTEMPTS)
    && (s.sender.Recording? && s.sender.exhausted ==> !s.sender.ok)
    && (forall i :: 0 <= i < |s.outcomes| ==> s.outcomes[i].exhausted ==> !s.outcomes[i].ok)
  }

  /** The drop counter lags the drops by those not counted yet. */
  ghost predicate DropsCounted(s: State) {
    s.stats.droppedQueueFull + Uncounted(s.callers) == |s.dropped| + |s.refused|
  }

  /** The delivery counters count the recorded outcomes of their class. */
  ghost predicate DeliveriesCounted(s: State) {
    && s.stats.firingOK == |Class(s.outcomes, Firing, true)|
    && s.stats.firingFailed == |Class(s.outcomes, Firing, false)|
    && s.stats.resolvedOK == |Class(s.outcomes, Resolved, true)|
    && s.stats.resolvedFailed == |Class(s.outcomes, Resolved, false)|
    && s.stats.droppedRetriesExhausted + (if s.sender.CountingExhausted? then 1 else 0) == |Exhausted(s.outcomes)|
  }

  ghost predicate Inv(s: State) {
    && Fifo(s) && NoneLostInside(s) && NoneLostOnEntry(s) && TakenInOrder(s)
    && RecordedOnce(s) && AttemptsBounded(s) && DropsCounted(s) && DeliveriesCounted(s)
  }

  lemma {:induction false} InitInv(callers: nat)
    ensures Inv(Init(callers))
  {
    IdleHoldsNothing(Init(callers).callers);
    assert forall status, ok :: Class([], status, ok) == {};
    assert Exhausted([]) == {};
  }

  /** What one step does to the channel. */
  datatype ChannelMove = Still | Send(note: Notification) | TakeHead | DropHead

  ghost predicate ChannelMoves(s: State, next: State, m: ChannelMove) {
    match m
    case Still =>
      && next.queue == s.queue && next.inserted == s.inserted && next.received == s.received
      && next.taken == s.taken && next.takenAt == s.takenAt && next.dropped == s.dropped
    case Send(n) =>
      && |s.queue| < QUEUE_SIZE
      && next.queue == s.queue + [n] && next.inserted == s.inserted + [n] && next.received == s.received
      && next.taken == s.taken && next.takenAt == s.takenAt && next.dropped == s.dropped
    case TakeHead =>
      && s.queue != []
      && next.queue == s.queue[1..] && next.inserted == s.inserted && next.received == s.received + 1
      && next.taken == s.taken + [s.queue[0]] && next.takenAt == s.takenAt + [s.received] && next.dropped == s.dropped
    case DropHead =>
      && s.queue != []
      && next.queue == s.queue[1..] && next.inserted == s.inserted && next.received == s.received + 1
      && next.taken == s.taken && next.takenAt == s.takenAt && next.dropped == s.dropped + [s.queue[0]]
  }

  lemma {:induction false} ChannelMoveOf(s: State, e: Event) returns (m: ChannelMove)
    requires Next(s, e).Some?
    ensures ChannelMoves(s, Next(s, e).value, m)
  {
    m := Still;
    match e {
      case Take => m := TakeHead;
      case DropOldest(_) => if s.queue != [] { m := DropHead; }
      case Try(who) => if |s.queue| < QUEUE_SIZE { m := Send(s.callers[who].note); }
      case Retry(who) => if |s.queue| < QUEUE_SIZE { m := Send(s.callers[who].note); }
      case _ =>
    }
  }

  lemma {:induction false} FifoKept(s: State, next: State, m: ChannelMove)
    requires Fifo(s) && ChannelMoves(s, next, m)
    ensures Fifo(next)
  {
    assert s.queue != [] ==> s.inserted[s.received..][1..] == s.inserted[s.received + 1..];
  }

  lemma {:induction false} NoneLostInsideKept(s: State, next: State, m: ChannelMove)
    requires Fifo(s) && NoneLostInside(s) && ChannelMoves(s, next, m)
    ensures NoneLostInside(next)
  {
    if m.TakeHead? || m.DropHead? {
      assert s.inserted[s.received] == s.queue[0];
      assert s.inserted[..s.received + 1] == s.inserted[..s.received] + [s.queue[0]];
    } else {
      assert next.inserted[..s.received] == s.inserted[..s.received];
    }
  }

  lemma {:induction false} TakenInOrderKept(s: State, next: State, m: ChannelMove)
    requires Fifo(s) && TakenInOrder(s) && ChannelMoves(s, next, m)
    ensures TakenInOrder(next)
  {
    if m.TakeHead? {
      assert s.inserted[s.received] == s.queue[0];
    }
  }

  /** A step moves at most one caller's notification between the books of entry. */
  ghost predicate Moves(s: State, next: State, who: nat, arriving: seq<Notification>,
                        inserting: seq<Notification>, refusing: seq<Notification>)
  {
    && who < |s.callers| == |next.callers|
    && next.callers == s.callers[who := next.callers[who]]
    && next.accepted == s.accepted + multiset(arriving)
    && next.inserted == s.inserted + inserting && next.refused == s.refused + refusing
    && arriving + HeldBy(s.callers[who]) == inserting + refusing + HeldBy(next.callers[who])
  }

  lemma {:induction false} CallerMoves(s: State, e: Event)
    returns (arriving: seq<Notification>, inserting: seq<Notification>, refusing: seq<Notification>)
    requires IsCallerEvent(e) && Next(s, e).Some?
    ensures Moves(s, Next(s, e).value, e.who, arriving, inserting, refusing)
  {
    var c := s.callers[e.who];
    arriving, inserting, refusing := [], [], [];
    match e {
      case Call(_, n) => arriving := [n];
      case Try(_) => if |s.queue| < QUEUE_SIZE { inserting := [c.note]; }
      case Retry(_) => if |s.queue| < QUEUE_SIZE { inserting := [c.note]; } else { refusing := [c.note]; }
      case DropOldest(_) =>
      case CountDrop(_) =>
      case CountSelf(_) =>
    }
  }

  lemma {:induction false} MovesBalance(s: State, next: State, who: nat, arriving: seq<Notification>,
                     inserting: seq<Notification>, refusing: seq<Notification>)
    requires NoneLostOnEntry(s) && Moves(s, next, who, arriving, inserting, refusing)
    ensures NoneLostOnEntry(next)
  {
    var c, c' := s.callers[who], next.callers[who];
    HeldUpdate(s.callers, who, c');
    assert multiset(arriving + HeldBy(c)) == multiset(arriving) + multiset(HeldBy(c));
    assert multiset(inserting + refusing + HeldBy(c')) == multiset(inserting) + multiset(refusing) + multiset(HeldBy(c'));
    Balance(s.accepted, multiset(s.inserted), multiset(s.refused), Held(s.callers), Held(next.callers),
            multiset(HeldBy(c)), multiset(HeldBy(c')), multiset(arriving), multiset(inserting), multiset(refusing));
  }

  lemma {:induction false} OthersLeaveEntry(s: State, e: Event)
    requires !IsCallerEvent(e) && Next(s, e).Some?
    ensures var next := Next(s, e).value;
      && next.callers == s.callers && next.accepted == s.accepted && next.inserted == s.inserted
      && next.refused == s.refused && next.dropped == s.dropped
      && next.stats.droppedQueueFull == s.stats.droppedQueueFull
  {
  }

  lemma {:induction false} NoneLostOnEntryKept(s: State, e: Event)
    requires NoneLostOnEntry(s) && Next(s, e).Some?
    ensures NoneLostOnEntry(Next(s, e).value)
  {
    if IsCallerEvent(e) {
      var arriving, inserting, refusing := CallerMoves(s, e);
      MovesBalance(s, Next(s, e).value, e.who, arriving, inserting, refusing);
    } else {
      OthersLeaveEntry(s, e);
    }
  }

  lemma {:induction false} RecordedOnceKept(s: State, e: Event)
    requires RecordedOnce(s) && Next(s, e).Some?
    ensures RecordedOnce(Next(s, e).value)
  {
    var next := Next(s, e).value;
    if !e.Take? && !e.Settle? {
      assert next.taken == s.taken && next.outcomes == s.outcomes;
      assert InFlight(next.sender) == InFlight(s.sender);
    }
  }

  lemma {:induction false} AttemptsBoundedKept(s: State, e: Event)
    requires AttemptsBounded(s) && Next(s, e).Some?
    ensures AttemptsBounded(Next(s, e).value)
  {
  }

  lemma {:induction false} DropsCountedKept(s: State, e: Event)
    requires DropsCounted(s) && Next(s, e).Some?
    ensures DropsCounted(Next(s, e).value)
  {
    if IsCallerEvent(e) {
      var c' := Next(s, e).value.callers[e.who];
      UncountedUpdate(s.callers, e.who, c');
      assert Next(s, e).value.callers == s.callers[e.who := c'];
    } else {
      OthersLeaveEntry(s, e);
    }
  }

  /** A step that leaves outcomes and delivery counters alone keeps them in agreement. */
  lemma {:induction false} DeliveriesUntouched(s: State, next: State)
    requires DeliveriesCounted(s) && next.outcomes == s.outcomes
    requires next.stats.(droppedQueueFull := 0) == s.stats.(droppedQueueFull := 0)
    requires next.sender.CountingExhausted? == s.sender.CountingExhausted?
    ensures DeliveriesCounted(next)
  {
  }

  lemma {:induction false} SettleKept(s: State)
    requires DeliveriesCounted(s) && s.sender.Recording?
    ensures DeliveriesCounted(SenderStep(s, Settle).value)
  {
    var o := Outcome(s.sender.note, s.sender.ok, s.sender.exhausted);
    ClassAppend(s.outcomes, o, Firing, true);
    ClassAppend(s.outcomes, o, Firing, false);
    ClassAppend(s.outcomes, o, Resolved, true);
    ClassAppend(s.outcomes, o, Resolved, false);
    ExhaustedAppend(s.outcomes, o);
  }

  lemma {:induction false} DeliveriesCountedKept(s: State, e: Event)
    requires DeliveriesCounted(s) && Next(s, e).Some?
    ensures DeliveriesCounted(Next(s, e).value)
  {
    match e {
      case Settle => SettleKept(s);
      case CountExhausted =>
      case _ => DeliveriesUntouched(s, Next(s, e).value);
    }
  }

  lemma {:induction false} RunKeepsInv(s: State, events: seq<Event>)
    requires Inv(s)
    ensures var r := Run(s, events); r.Some? ==> Inv(r.value)
    decreases |events|
  {
    if events != [] && Next(s, events[0]).Some? {
      StepKeepsInv(s, events[0]);
      RunKeepsInv(Next(s, events[0]).value, events[1..]);
    }
  }

  lemma {:induction false} StepKeepsInv(s: State, e: Event)
    requires Inv(s) && Next(s, e).Some?
    ensures Inv(Next(s, e).value)
  {
    var m := ChannelMoveOf(s, e);
    FifoKept(s, Next(s, e).value, m);
    NoneLostInsideKept(s, Next(s, e).value, m);
    TakenInOrderKept(s, Next(s, e).value, m);
    NoneLostOnEntryKept(s, e);
    RecordedOnceKept(s, e);
    AttemptsBoundedKept(s, e);
    DropsCountedKept(s, e);
    DeliveriesCountedKept(s, e);
  }

  lemma {:induction false} Reached(callers: nat, events: seq<Event>)
    requires Run(Init(callers), events).Some?
    ensures Inv(Run(Init(callers), events).value)
  {
    InitInv(callers);
    RunKeepsInv(Init(callers), events);
  }

  // ---- the guarantees

  /**
   Conservation, notification by notification and in every interleaving: each
   one handed to Enqueue was received by the sender, was dropped, is queued, or
   is still in a caller's hands.  The queue stays within its bound.
   */
  lemma {:induction false} NothingIsLost(callers: nat, events: seq<Event>)
    requires Run(Init(callers), events).Some?
    ensures var s := Run(Init(callers), events).value;
      && s.accepted == multiset(s.taken) + multiset(s.dropped) + multiset(s.refused) + multiset(s.queue) + Held(s.callers)
      && |s.queue| <= QUEUE_SIZE
  {
    Reached(callers, events);
    var s := Run(Init(callers), events).value;
    assert s.inserted == s.inserted[..s.received] + s.inserted[s.received..];
  }

  /** The four classes make up all outcomes, and every exhausted one failed. */
  lemma {:induction false} ClassesAddUp(outcomes: seq<Outcome>)
    requires forall i :: 0 <= i < |outcomes| ==> outcomes[i].exhausted ==> !outcomes[i].ok
    ensures |Class(outcomes, Firing, true)| + |Class(outcomes, Firing, false)|
          + |Class(outcomes, Resolved, true)| + |Class(outcomes, Resolved, false)| == |outcomes|
    ensures |Exhausted(outcomes)| <= |Class(outcomes, Firing, false)| + |Class(outcomes, Resolved, false)|
  {
    if outcomes == [] {
      assert forall status, ok :: Class(outcomes, status, ok) == {};
      assert Exhausted(outcomes) == {};
    } else {
      var init, o := outcomes[..|outcomes| - 1], outcomes[|outcomes| - 1];
      ClassesAddUp(init);
      assert outcomes == init + [o];
      ClassAppend(init, o, Firing, true);
      ClassAppend(init, o, Firing, false);
      ClassAppend(init, o, Resolved, true);
      ClassAppend(init, o, Resolved, false);
      ExhaustedAppend(init, o);
    }
  }

  /** The same conservation in the counters the sink publishes. */
  lemma {:induction false} CountersAddUp(callers: nat, events: seq<Event>)
    requires Run(Init(callers), events).Some?
    ensures var s := Run(Init(callers), events).value;
      && s.stats.droppedRetriesExhausted <= s.stats.firingFailed + s.stats.resolvedFailed
      && |s.accepted| == s.stats.firingOK + s.stats.firingFailed + s.stats.resolvedOK + s.stats.resolvedFailed
                       + s.stats.droppedQueueFull + Uncounted(s.callers)
                       + |s.queue| + |InFlight(s.sender)| + |Held(s.callers)|
  {
    NothingIsLost(callers, events);
    Reached(callers, events);
    ClassesAddUp(Run(Init(callers), events).value.outcomes);
  }

  /**
   The sender records every notification it took exactly once and in the order
   taken (the one in flight excepted), and that order is a subsequence of the
   order of insertion.
   */
  lemma {:induction false} DeliveryFollowsInsertion(callers: nat, events: seq<Event>)
    requires Run(Init(callers), events).Some?
    ensures var s := Run(Init(callers), events).value;
      RecordedOnce(s) && AttemptsBounded(s) && IsSubsequence(s.taken, s.inserted, s.takenAt)
  {
    Reached(callers, events);
  }

  // ---- what a delivery's answers decide

  /** The answers of the delivery under way, and those of each recorded one: what an observer of the schedule sees. */
  datatype Observed = Observed(current: seq<Answer>, done: seq<seq<Answer>>)

  function Observe(o: Observed, e: Event): (r: Observed) {
    match e
    case Take => o.(current := [])
    case Post(answer) => o.(current := o.current + [answer])
    case Settle => o.(done := o.done + [o.current])
    case _ => o
  }

  function ObserveAll(o: Observed, events: seq<Event>): (r: Observed)
    decreases |events|
  {
    if events == [] then o else ObserveAll(Observe(o, events[0]), events[1..])
  }

  /** The POST answers of each recorded delivery of a schedule, in order. */
  function Deliveries(events: seq<Event>): (ds: seq<seq<Answer>>) { ObserveAll(Observed([], []), events).done }

  /** Worth another attempt. */
  predicate Retryable(a: Answer) { a == ServerError || a == TransportError }

  /** Attempts that all have to be repeated. */
  predicate AllRetryable(answers: seq<Answer>) { forall i :: 0 <= i < |answers| ==> Retryable(answers[i]) }

  /**
   A delivery succeeded iff its last POST was accepted; it ran out of attempts iff
   all three were worth repeating; an accepted or rejected POST is its last; and it
   was given up early only when nothing could be posted or the sink was cancelled.
   */
  ghost predicate Judged(answers: seq<Answer>, ok: bool, exhausted: bool, cancelled: bool) {
    && |answers| <= ATTEMPTS && AllRetryable(answers[..if answers == [] then 0 else |answers| - 1])
    && (ok <==> answers != [] && answers[|answers| - 1] == Accepted)
    && (exhausted <==> |answers| == ATTEMPTS && AllRetryable(answers))
    && (!ok && !exhausted ==> answers == [] || answers[|answers| - 1] == Rejected || cancelled)
  }

  ghost predicate SenderKnows(s: State, current: seq<Answer>) {
    match s.sender
    case Encoding(_) => current == []
    case Posting(_, attempt) => 1 <= attempt <= ATTEMPTS && |current| == attempt - 1 && AllRetryable(current)
    case Backoff(_, attempt) => 1 <= attempt < ATTEMPTS && |current| == attempt && AllRetryable(current)
    case Recording(_, ok, exhausted) => Judged(current, ok, exhausted, s.cancelled)
    case _ => true
  }

  ghost predicate OutcomesJudged(s: State, done: seq<seq<Answer>>) {
    && |done| == |s.outcomes|
    && forall i :: 0 <= i < |done| ==> Judged(done[i], s.outcomes[i].ok, s.outcomes[i].exhausted, s.cancelled)
  }

  lemma {:induction false} PostJudged(n: Notification, attempt: nat, answer: Answer, current: seq<Answer>, s: State)
    requires 1 <= attempt <= ATTEMPTS && |current| == attempt - 1 && AllRetryable(current)
    requires s.sender == AfterPost(n, attempt, answer)
    ensures SenderKnows(s, current + [answer])
  {
    var answers := current + [answer];
    assert answers[..|current|] == current && answers[|current|] == answer;
  }

  lemma {:induction false} SenderKnowsKept(s: State, e: Event, o: Observed)
    requires SenderKnows(s, o.current) && Next(s, e).Some?
    ensures SenderKnows(Next(s, e).value, Observe(o, e).current)
  {
    var next := Next(s, e).value;
    if IsCallerEvent(e) || e.Cancel? {
      assert next.sender == s.sender;
    } else {
      match e {
        case Post(answer) => PostJudged(s.sender.note, s.sender.attempt, answer, o.current, next);
        case GiveUp => GivenUp(o.current, next);
        case _ =>
      }
    }
  }

  lemma {:induction false} GivenUp(current: seq<Answer>, s: State)
    requires 1 <= |current| < ATTEMPTS && AllRetryable(current) && s.cancelled
    requires s.sender.Recording? && !s.sender.ok && !s.sender.exhausted
    ensures SenderKnows(s, current)
  {
  }

  lemma {:induction false} OutcomesJudgedKept(s: State, e: Event, o: Observed)
    requires SenderKnows(s, o.current) && OutcomesJudged(s, o.done) && Next(s, e).Some?
    ensures OutcomesJudged(Next(s, e).value, Observe(o, e).done)
  {
    var next := Next(s, e).value;
    assert s.cancelled ==> next.cancelled;
    if e.Settle? {
      assert next.outcomes == s.outcomes + [Outcome(s.sender.note, s.sender.ok, s.sender.exhausted)];
    } else {
      assert next.outcomes == s.outcomes;
    }
  }

  lemma {:induction false} RunIsJudged(s: State, events: seq<Event>, o: Observed)
    requires SenderKnows(s, o.current) && OutcomesJudged(s, o.done) && Run(s, events).Some?
    ensures OutcomesJudged(Run(s, events).value, ObserveAll(o, events).done)
    decreases |events|
  {
    if events != [] {
      SenderKnowsKept(s, events[0], o);
      OutcomesJudgedKept(s, events[0], o);
      RunIsJudged(Next(s, events[0]).value, events[1..], Observe(o, events[0]));
    }
  }

  /** Over every schedule each recorded outcome is the one its own POST answers call for. */
  lemma {:induction false} AnswersDecide(callers: nat, events: seq<Event>)
    requires Run(Init(callers), events).Some?
    ensures OutcomesJudged(Run(Init(callers), events).value, Deliveries(events))
  {
    RunIsJudged(Init(callers), events, Observed([], []));
  }

  /** The recorded deliveries of one status whose last POST was accepted. */
  ghost function Delivered(outcomes: seq<Outcome>, ds: seq<seq<Answer>>, status: Status): set<int>
    requires |ds| == |outcomes|
  {
    set i | 0 <= i < |ds| && outcomes[i].note.status == status && ds[i] != [] && ds[i][|ds[i]| - 1] == Accepted
  }

  /** The published success counters count exactly the deliveries whose last POST was accepted. */
  lemma {:induction false} CountersFollowAnswers(callers: nat, events: seq<Event>)
    requires Run(Init(callers), events).Some?
    ensures var s, ds := Run(Init(callers), events).value, Deliveries(events);
      && |ds| == |s.outcomes|
      && s.stats.firingOK == |Delivered(s.outcomes, ds, Firing)| && s.stats.resolvedOK == |Delivered(s.outcomes, ds, Resolved)|
      && s.stats.firingOK + s.stats.firingFailed + s.stats.resolvedOK + s.stats.resolvedFailed == |ds|
  {
    var s, ds := Run(Init(callers), events).value, Deliveries(events);
    AnswersDecide(callers, events);
    Reached(callers, events);
    ClassesAddUp(s.outcomes);
    assert Delivered(s.outcomes, ds, Firing) == Class(s.outcomes, Firing, true);
    assert Delivered(s.outcomes, ds, Resolved) == Class(s.outcomes, Resolved, true);
  }

  // ---- one caller

  /** A single caller past the second select finds room: only it inserts. */
  ghost predicate RoomForNewest(s: State) {
    && |s.callers| <= 1 && |s.queue| <= QUEUE_SIZE && s.refused == []
    && (forall i :: 0 <= i < |s.callers| ==> !s.callers[i].CountingSelf?)
    && (forall i :: 0 <= i < |s.callers| && (s.callers[i].Counting? || s.callers[i].MadeRoom?) ==> |s.queue| < QUEUE_SIZE)
  }

  lemma {:induction false} RoomKept(s: State, e: Event)
    requires RoomForNewest(s) && Next(s, e).Some?
    ensures RoomForNewest(Next(s, e).value)
  {
  }

  lemma {:induction false} RunKeepsRoom(s: State, events: seq<Event>)
    requires RoomForNewest(s)
    ensures var r := Run(s, events); r.Some? ==> RoomForNewest(r.value)
    decreases |events|
  {
    if events != [] && Next(s, events[0]).Some? {
      RoomKept(s, events[0]);
      RunKeepsRoom(Next(s, events[0]).value, events[1..]);
    }
  }

  /** With one caller the newest notification is never the one dropped. */
  lemma {:induction false} SingleCallerKeepsNewest(callers: nat, events: seq<Event>)
    requires callers <= 1 && Run(Init(callers), events).Some?
    ensures Run(Init(callers), events).value.refused == []
  {
    RunKeepsRoom(Init(callers), events);
  }

  // ---- two or more callers

  lemma {:induction false} RunAppend(s: State, a: seq<Event>, b: seq<Event>)
    requires Run(s, a).Some?
    ensures Run(s, a + b) == Run(Run(s, a).value, b)
    decreases |a|
  {
    if a == [] {
      assert a + b == b;
    } else {
      RunAppend(Next(s, a[0]).value, a[1..], b);
      assert (a + b)[1..] == a[1..] + b;
    }
  }

  ghost predicate Quiet(s: State, queued: nat) {
    |s.callers| >= 2 && s.callers[0] == Idle && s.callers[1] == Idle && |s.queue| == queued
  }

  /** One caller's undisturbed Enqueue into a queue with room. */
  lemma {:induction false} EnqueueOne(s: State, queued: nat, who: nat, n: Notification)
    requires Quiet(s, queued) && queued < QUEUE_SIZE && who < 2
    ensures var r := Run(s, [Call(who, n), Try(who)]); r.Some? && Quiet(r.value, queued + 1)
  {
    var s1 := Next(s, Call(who, n)).value;
    var s2 := Next(s1, Try(who)).value;
    assert Quiet(s2, queued + 1);
    assert Run(s2, []) == Some(s2);
    assert [Call(who, n), Try(who)][1..] == [Try(who)];
    assert Run(s1, [Try(who)]) == Run(s2, [Try(who)][1..]);
  }

  lemma {:induction false} FillQueue(callers: nat, n: Notification, queued: nat) returns (events: seq<Event>)
    requires callers >= 2 && queued <= QUEUE_SIZE
    ensures var r := Run(Init(callers), events); r.Some? && Quiet(r.value, queued)
  {
    events := [];
    if queued > 0 {
      events := FillQueue(callers, n, queued - 1);
      EnqueueOne(Run(Init(callers), events).value, queued - 1, 0, n);
      RunAppend(Init(callers), events, [Call(0, n), Try(0)]);
      events := events + [Call(0, n), Try(0)];
    }
  }

  lemma {:induction false} RunCons(s: State, e: Event, rest: seq<Event>)
    requires Next(s, e).Some?
    ensures Run(s, [e] + rest) == Run(Next(s, e).value, rest)
  {
    assert ([e] + rest)[1..] == rest;
  }

  /** The first caller has made room and the second is idle. */
  ghost predicate RoomMade(s: State, n: Notification) {
    |s.callers| >= 2 && s.callers[0] == MadeRoom(n) && s.callers[1] == Idle && |s.queue| == QUEUE_SIZE - 1
  }

  /** Full queue: the first caller drops the oldest and counts it. */
  lemma {:induction false} MakeRoom(s: State, n: Notification)
    requires Quiet(s, QUEUE_SIZE)
    ensures var r := Run(s, [Call(0, n), Try(0), DropOldest(0), CountDrop(0)]); r.Some? && RoomMade(r.value, n)
  {
    var s1 := Next(s, Call(0, n)).value;
    var s2 := Next(s1, Try(0)).value;
    assert s2.callers[0] == FoundFull(n);
    var s3 := Next(s2, DropOldest(0)).value;
    var s4 := Next(s3, CountDrop(0)).value;
    assert RoomMade(s4, n);
    RunCons(s, Call(0, n), [Try(0), DropOldest(0), CountDrop(0)]);
    RunCons(s1, Try(0), [DropOldest(0), CountDrop(0)]);
    RunCons(s2, DropOldest(0), [CountDrop(0)]);
    RunCons(s3, CountDrop(0), []);
    assert Run(s4, []) == Some(s4);
  }

  /** The second caller takes the free slot and the first is refused. */
  lemma {:induction false} StealRoom(s: State, n: Notification)
    requires RoomMade(s, n)
    ensures var r := Run(s, [Call(1, n), Try(1), Retry(0)]); r.Some? && r.value.refused == s.refused + [n]
  {
    var s1 := Next(s, Call(1, n)).value;
    var s2 := Next(s1, Try(1)).value;
    assert s2.callers[0] == MadeRoom(n) && |s2.queue| == QUEUE_SIZE;
    var s3 := Next(s2, Retry(0)).value;
    RunCons(s, Call(1, n), [Try(1), Retry(0)]);
    RunCons(s1, Try(1), [Retry(0)]);
    RunCons(s2, Retry(0), []);
    assert Run(s3, []) == Some(s3);
  }

  /** With two or more callers the newest notification can be the one dropped. */
  lemma {:induction false} TwoCallersCanDropNewest(callers: nat, n: Notification) returns (events: seq<Event>)
    requires callers >= 2
    ensures DropsNewest(callers, events)
  {
    events := FillQueue(callers, n, QUEUE_SIZE);
    MakeRoom(Run(Init(callers), events).value, n);
    RunAppend(Init(callers), events, [Call(0, n), Try(0), DropOldest(0), CountDrop(0)]);
    events := events + [Call(0, n), Try(0), DropOldest(0), CountDrop(0)];
    StealRoom(Run(Init(callers), events).value, n);
    RunAppend(Init(callers), events, [Call(1, n), Try(1), Retry(0)]);
    events := events + [Call(1, n), Try(1), Retry(0)];
  }

  /** A schedule on which some caller loses its own notification. */
  ghost predicate DropsNewest(callers: nat, events: seq<Event>) {
    var r := Run(Init(callers), events);
    r.Some? && r.value.refused != []
  }

  /** Exactly: some schedule drops the newest notification if and only if there are at least two callers. */
  lemma {:induction false} NewestDroppedIff(callers: nat, n: Notification)
    ensures (exists events :: DropsNewest(callers, events)) <==> callers >= 2
  {
    if callers >= 2 {
      var events := TwoCallersCanDropNewest(callers, n);
      assert DropsNewest(callers, events);
    } else {
      forall events ensures !DropsNewest(callers, events) {
        if Run(Init(callers), events).Some? {
          SingleCallerKeepsNewest(callers, events);
        }
      }
    }
  }
}
