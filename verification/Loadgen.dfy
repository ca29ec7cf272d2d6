/** The open-loop load engine (generator/src/loadgen.py) as a state machine over its atomic
    steps: one pacer (the main thread), a bounded queue and N worker threads. Time is left to the
    scheduler: an action whose timing the code decides with the clock may happen whenever its
    program counter is there. `Pacer` has the clock. */
module Loadgen {
  import opened Basics
  import opened Metrics
  import opened Payload

  /** What `config.load` hands to the engine. `abortLimit` 0 switches the abort off. */
  datatype Config = Config(
    workers: nat, variants: nat, batch: nat, maxInflight: nat,
    nbytes: nat, abortLimit: nat, schema: Schema)
  {
    ghost predicate Valid() {
      variants > 0 && batch > 0 && workers <= maxInflight
    }

    /** The factory never builds for fewer than one worker. */
    function PoolWorkers(): (n: nat)
      ensures n == if workers == 0 then 1 else workers
    {
      Max(1, workers)
    }

    function QueueSize(): (n: nat)
      ensures n >= 1 && n >= maxInflight && (n == 1 || n == maxInflight)
    {
      Max(1, maxInflight)
    }

    function Template(w: nat, item: Item): nat
      requires variants > 0
    {
      TemplateIndex(PoolWorkers(), variants, w, item.variant)
    }
  }

  datatype Item = Item(start: int, variant: nat)

  /** The queue holds work and, after `stop`, one None for each worker. */
  datatype Entry = Work(item: Item) | Sentinel

  datatype Outcome = Ok | Failed(code: Code)

  /** Where a worker is in `_worker_loop` / `_send` / `_record_failure`. */
  datatype Phase =
    | Idle
    | Held(item: Item)
    | Stamping(item: Item, k: nat)
    | InRpc(item: Item, wire: seq<Slot>)
    | Returned(item: Item, outcome: Outcome)
    | InTotals(item: Item, outcome: Outcome)
    | Exited

  /** Where the main thread is: in `run_step`, between steps, or in `stop`. `Looping` and
      `Allocated` are at a loop guard that reads the stop flag; `InTurn` and `Putting` are past it. */
  datatype Pacer =
    | Between
    | Looping
    | InTurn
    | Allocated(item: Item)
    | Putting(item: Item)
    | GaveUp(item: Item)
    | Enqueued(item: Item)
    | Recorded(item: Item)
    | Draining
    | SawEmpty
    | Closing(drained: bool)
    | Stopping(sent: nat)
    | Finished

  datatype StepResult = StepResult(
    seqStart: int, seqEnd: int, offered: int,
    accepted: int, rejected: int, requests: int, failures: int, errorsByCode: map<Code, int>)

  /** The result of a step that has only begun. */
  function Blank(seqStart: int): StepResult {
    StepResult(seqStart, 0, 0, 0, 0, 0, 0, map[])
  }

  /** An export that returned OK: the item and what its request carried. */
  datatype Ack = Ack(item: Item, wire: seq<Slot>)

  datatype State = State(
    nextSeq: int,
    queue: seq<Entry>,
    pacer: Pacer,
    variant: nat,
    open: seq<StepResult>,          // self._step: empty for None, else the one open step
    steps: seq<StepResult>,
    workers: seq<Phase>,
    pool: seq<seq<Slot>>,
    inflight: int,
    totals: Totals,
    stop: bool,
    consecutive: nat,
    aborted: bool,
    // history, read by no action
    enqueued: seq<Item>,
    taken: nat,
    acks: seq<Ack>,
    accepted: multiset<Item>,
    failed: multiset<Item>,
    crashed: multiset<Item>,        // raised out of _send before an OK was seen
    lostAcks: multiset<Item>,       // raised out of _send after an OK and before record_success
    late: nat,                      // records acked while no step was open
    credit: multiset<Item>,         // items whose ack was posted to the open step
    past: multiset<Item>,           // items whose ack was posted earlier, or while no step was open
    dropped: nat)                   // sentinels that met a full queue

  datatype Action =
    // main thread
    | BeginStep | EnterTurn | Wait | LeaveLoop | Allocate | TryPut | Put | GiveUp | RollBack
    | RecordOffered | RecordInStep
    | CheckEmpty | CheckInflight | DrainTimeout | CloseStep | BeginStop | PutSentinel | Join
    | Signal
    // worker w
    | Take(w: nat) | BeginStamp(w: nat) | StampOne(w: nat) | Export(w: nat)
    | Return(w: nat, outcome: Outcome) | Crash(w: nat) | RecordTotals(w: nat) | RecordStep(w: nat)

  function Init(c: Config, pool: seq<seq<Slot>>, zero: Totals): State {
    State(0, [], Between, 0, [], [], seq(c.workers, _ => Idle), pool, 0, zero, false, 0, false,
          [], 0, [], multiset{}, multiset{}, multiset{}, multiset{}, 0, multiset{}, multiset{}, 0)
  }

  /** The pool the factory built: one private slice of templates for each worker. */
  ghost predicate PoolShape(c: Config, pool: seq<seq<Slot>>) {
    && |pool| == c.PoolWorkers() * c.variants
    && forall t :: 0 <= t < |pool| ==> |pool[t]| == c.batch
  }

  /** The loop of `run_step`. An action that is not enabled leaves the state alone. */
  function LoopStep(c: Config, s: State, a: Action): State
    requires c.Valid()
  {
    var p := s.pacer;
    match a
    case BeginStep =>
      if p.Between? then s.(open := [Blank(s.nextSeq)], variant := 0, pacer := Looping) else s
    case EnterTurn => if p.Looping? && !s.stop then s.(pacer := InTurn) else s
    case Wait => if p.InTurn? then s.(pacer := Looping) else s
    case LeaveLoop => if p.Looping? || p.InTurn? then s.(pacer := Draining) else s
    case Allocate =>
      if p.InTurn? then
        s.(nextSeq := s.nextSeq + c.batch,
           variant := (s.variant + 1) % c.variants,
           pacer := Allocated(Item(s.nextSeq, s.variant)))
      else s
    case TryPut => if p.Allocated? && !s.stop then s.(pacer := Putting(p.item)) else s
    case Put =>
      if !p.Putting? then s
      else if |s.queue| < c.QueueSize() then
        s.(queue := s.queue + [Work(p.item)], enqueued := s.enqueued + [p.item], pacer := Enqueued(p.item))
      else s.(pacer := Allocated(p.item))
    case GiveUp => if p.Allocated? then s.(pacer := GaveUp(p.item)) else s
    case RollBack =>
      if p.GaveUp? then
        s.(nextSeq := if s.nextSeq == p.item.start + c.batch then p.item.start else s.nextSeq, pacer := Draining)
      else s
    case RecordOffered =>
      if p.Enqueued? then s.(totals := AddOffered(s.totals, c.batch, c.nbytes), pacer := Recorded(p.item)) else s
    case RecordInStep =>
      if p.Recorded? then
        s.(open := AddToOpen(s.open, c.batch, 0, 0, 0, 0), pacer := if s.aborted then Draining else Looping)
      else s
    case _ => s
  }

  /** The end of `run_step`, and `stop`. */
  function BarrierStep(c: Config, s: State, a: Action): State
    requires c.Valid()
  {
    var p := s.pacer;
    match a
    case CheckEmpty => if p.Draining? && s.queue == [] then s.(pacer := SawEmpty) else s
    case CheckInflight => if p.SawEmpty? then s.(pacer := if s.inflight == 0 then Closing(true) else Draining) else s
    case DrainTimeout => if p.Draining? then s.(pacer := Closing(false)) else s
    case CloseStep =>
      if p.Closing? then
        s.(steps := s.steps + Closed(s.open, s.nextSeq),
           open := [], past := s.past + s.credit, credit := multiset{}, pacer := Between)
      else s
    case BeginStop => if p.Between? then s.(stop := true, pacer := Stopping(0)) else s
    case PutSentinel =>
      if !p.Stopping? || p.sent == c.workers then s
      else if |s.queue| < c.QueueSize() then s.(queue := s.queue + [Sentinel], pacer := Stopping(p.sent + 1))
      else s.(dropped := s.dropped + 1, pacer := Stopping(p.sent + 1))
    case Join => if p.Stopping? && p.sent == c.workers then s.(pacer := Finished) else s
    case Signal => s.(stop := true)
    case _ => s
  }

  predicate IsBarrier(a: Action) {
    a.CheckEmpty? || a.CheckInflight? || a.DrainTimeout? || a.CloseStep? || a.BeginStop? || a.PutSentinel? || a.Join?
      || a.Signal?
  }

  /** The main thread. */
  function PacerStep(c: Config, s: State, a: Action): State
    requires c.Valid()
  {
    if IsBarrier(a) then BarrierStep(c, s, a) else LoopStep(c, s, a)
  }

  /** `with self._step_lock: if self._step: ...` */
  function AddToOpen(open: seq<StepResult>, offered: int, accepted: int, rejected: int, requests: int, failures: int)
    : seq<StepResult>
  {
    if open == [] then [] else
      var r := open[0];
      [r.(offered := r.offered + offered, accepted := r.accepted + accepted, rejected := r.rejected + rejected,
          requests := r.requests + requests, failures := r.failures + failures)]
  }

  /** What a failed request posts to the open step. */
  function FailInOpen(c: Config, open: seq<StepResult>, code: Code): seq<StepResult> {
    var posted := AddToOpen(open, 0, 0, if code.ResourceExhausted? then c.batch else 0, 1, 1);
    if posted == [] then [] else [posted[0].(errorsByCode := Bumped(posted[0].errorsByCode, code))]
  }

  function Closed(open: seq<StepResult>, nextSeq: int): seq<StepResult> {
    if open == [] then [] else [open[0].(seqEnd := Max(open[0].seqStart, nextSeq - 1))]
  }

  function SetPhase(s: State, w: nat, p: Phase): State
    requires w < |s.workers|
  {
    s.(workers := s.workers[w := p])
  }

  /** `_queue.get()`: an item to send, or the order to exit. */
  function Dequeue(s: State, w: nat): State
    requires w < |s.workers|
  {
    if s.queue == [] then s
    else if s.queue[0].Sentinel? then SetPhase(s.(queue := s.queue[1..]), w, Exited)
    else SetPhase(s.(queue := s.queue[1..], taken := s.taken + 1), w, Held(s.queue[0].item))
  }

  /** One iteration of the loop in `stamp`. */
  function StampNext(c: Config, s: State, w: nat, item: Item, k: nat): State
    requires c.Valid() && PoolShape(c, s.pool) && w < |s.workers| && k < c.batch
  {
    TemplateIndexInPool(c.PoolWorkers(), c.variants, w, item.variant);
    var t := c.Template(w, item);
    SetPhase(s.(pool := s.pool[t := s.pool[t][k := StampSlot(c.schema, s.pool[t][k], item.start + k)]]),
             w, Stamping(item, k + 1))
  }

  /** `record_inflight(1)` and the call of `export`, which serialises the template. */
  function CallExport(c: Config, s: State, w: nat, item: Item): State
    requires c.Valid() && PoolShape(c, s.pool) && w < |s.workers|
  {
    TemplateIndexInPool(c.PoolWorkers(), c.variants, w, item.variant);
    SetPhase(s.(inflight := s.inflight + 1), w, InRpc(item, s.pool[c.Template(w, item)]))
  }

  /** `export` returns and `record_inflight(-1)` runs. */
  function ExportReturns(s: State, w: nat, item: Item, wire: seq<Slot>, outcome: Outcome): State
    requires w < |s.workers|
  {
    var u := s.(inflight := s.inflight - 1);
    SetPhase(if outcome.Ok? then u.(acks := s.acks + [Ack(item, wire)]) else u, w, Returned(item, outcome))
  }

  /** An exception leaves `_send` and `_worker_loop` logs it. */
  function Escape(s: State, w: nat, item: Item): State
    requires w < |s.workers|
  {
    SetPhase(s.(crashed := s.crashed + multiset{item}), w, Idle)
  }

  /** The same between an OK and `record_success`. */
  function EscapeAfterOk(s: State, w: nat, item: Item): State
    requires w < |s.workers|
  {
    SetPhase(s.(lostAcks := s.lostAcks + multiset{item}), w, Idle)
  }

  /** Wherever `_send` is, the exception loses the item it was working on. */
  function CrashStep(s: State, w: nat): State
    requires w < |s.workers|
  {
    match s.workers[w]
    case Held(item) => Escape(s, w, item)
    case Stamping(item, _) => Escape(s, w, item)
    case InRpc(item, _) => Escape(s.(inflight := s.inflight - 1), w, item)
    case Returned(item, outcome) => if outcome.Ok? then EscapeAfterOk(s, w, item) else Escape(s, w, item)
    case _ => s
  }

  /** `record_success` / `record_failure`. */
  function PostTotals(c: Config, s: State, w: nat, item: Item, outcome: Outcome): State
    requires w < |s.workers|
  {
    SetPhase(
      match outcome
      case Ok => s.(totals := AddSuccess(s.totals, c.batch), accepted := s.accepted + multiset{item})
      case Failed(code) => s.(totals := AddFailure(s.totals, c.batch, code), failed := s.failed + multiset{item}),
      w, InTotals(item, outcome))
  }

  /** The rest of `_send` after a success. */
  function PostAck(c: Config, s: State, w: nat, item: Item): State
    requires w < |s.workers|
  {
    var u := s.(consecutive := 0, open := AddToOpen(s.open, 0, c.batch, 0, 1, 0));
    SetPhase(if s.open == [] then u.(late := s.late + c.batch, past := s.past + multiset{item})
             else u.(credit := s.credit + multiset{item}), w, Idle)
  }

  /** The rest of `_record_failure`: the open step, and the abort counter. */
  function PostFailure(c: Config, s: State, w: nat, code: Code): State
    requires w < |s.workers|
  {
    var u := SetPhase(s.(open := FailInOpen(c, s.open, code)), w, Idle);
    if code.ResourceExhausted? then u else CountFailure(c, u)
  }

  /** One worker. An action that is not enabled leaves the state alone. */
  function WorkerStep(c: Config, s: State, w: nat, a: Action): State
    requires c.Valid() && PoolShape(c, s.pool) && w < |s.workers|
  {
    match (a, s.workers[w])
    case (Take(_), Idle) => Dequeue(s, w)
    case (BeginStamp(_), Held(item)) => SetPhase(s, w, Stamping(item, 0))
    case (StampOne(_), Stamping(item, k)) => if k < c.batch then StampNext(c, s, w, item, k) else s
    case (Export(_), Stamping(item, k)) => if k < c.batch then s else CallExport(c, s, w, item)
    case (Return(_, outcome), InRpc(item, wire)) => ExportReturns(s, w, item, wire, outcome)
    case (Crash(_), _) => CrashStep(s, w)
    case (RecordTotals(_), Returned(item, outcome)) => PostTotals(c, s, w, item, outcome)
    case (RecordStep(_), InTotals(item, outcome)) =>
      if outcome.Ok? then PostAck(c, s, w, item) else PostFailure(c, s, w, outcome.code)
    case _ => s
  }

  /** The tail of `_record_failure`: count towards the abort and perhaps trip it. */
  function CountFailure(c: Config, s: State): State {
    var n := s.consecutive + 1;
    if c.abortLimit > 0 && n >= c.abortLimit && !s.aborted
    then s.(consecutive := n, aborted := true, stop := true)
    else s.(consecutive := n)
  }

  function WorkerOf(a: Action): int {
    match a
    case Take(w) => w
    case BeginStamp(w) => w
    case StampOne(w) => w
    case Export(w) => w
    case Return(w, _) => w
    case Crash(w) => w
    case RecordTotals(w) => w
    case RecordStep(w) => w
    case _ => -1
  }

  /** One scheduling decision. */
  function Step(c: Config, s: State, a: Action): State
    requires c.Valid() && PoolShape(c, s.pool)
  {
    var w := WorkerOf(a);
    if w < 0 then PacerStep(c, s, a)
    else if w < |s.workers| then WorkerStep(c, s, w, a)
    else s
  }
}
