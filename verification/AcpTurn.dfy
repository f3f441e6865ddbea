/**
 The ACP turn protocol: a controller that owns at most one active turn, and turns whose
 message channel many emitters write to while several finishers race to close it.

 Every goroutine is a program counter; one step of the machine is one lock operation, one
 channel operation, or the body of a critical section together with the unlock that ends it.
 A lock is held by exactly the goroutines whose program counter lies between its Lock and its
 Unlock (predicate Holds). The machine interleaves the steps of any number of goroutines in any
 order, and the consumer of the channels may read at any time or never.
 */
module AcpTurn {
  import opened Wrappers

  const MESSAGE_CAPACITY: nat := 256
  const RESULT_CAPACITY: nat := 1

  /** An output chunk: whether its type is text, its content, and whether it carries a context event. */
  datatype Chunk = Chunk(text: bool, content: string, context: bool)

  datatype Usage = Usage(input: int, output: int, cacheRead: int)

  datatype TurnResult = TurnResult(status: string, error: string, output: string, usage: Usage)

  datatype Turn = Turn(
    messages: seq<Chunk>,
    messagesClosed: bool,
    results: seq<TurnResult>,
    resultsClosed: bool,
    doneClosed: bool,
    finished: bool,
    output: string,
    usage: Usage)

  const NEW_TURN := Turn([], false, [], false, false, false, "", Usage(0, 0, 0))

  /** Which turn a finish call names: failActive names the current one, finish a given one or nil. */
  datatype Target = Active | Named(turn: nat) | Nil

  /** emit: the controller's lock and the turn lookup, then the turn's read lock, its mutex, the send. */
  datatype EmitAt =
    ECtl | EPeek | ERLock(k: nat) | ELock(k: nat) | ECheck(k: nat) | ESend(k: nat) | ERUnlock(k: nat)

  /** finish and failActive: the controller's lock is held from FPeek to FClear. */
  datatype FinAt =
    | FCtl(target: Target, status: string, error: string)
    | FPeek(target: Target, status: string, error: string)
    | FLock(k: nat, status: string, error: string)
    | FMark(k: nat, status: string, error: string)
    | FAnnounce(k: nat, result: TurnResult)
    | FDrain(k: nat, result: TurnResult)
    | FClose(k: nat, result: TurnResult)
    | FUnlock(k: nat, result: TurnResult)
    | FDeliver(k: nat, result: TurnResult)
    | FSeal(k: nat)
    | FClear(k: nat, won: bool)

  /** recordPromptDone: the controller's lock is held from RPeek to RUnlock. */
  datatype RecAt = RCtl | RPeek | RLock(k: nat) | RStore(k: nat) | RUnlock

  datatype BeginAt = BCtl | BPeek

  datatype Pc =
    | Emit(chunk: Chunk, e: EmitAt)
    | Fin(f: FinAt)
    | Rec(usage: Usage, r: RecAt)
    | Begin(b: BeginAt)
    | Done(answer: bool)

  /** What has happened, in order; the theorems are statements about this record. */
  datatype Event =
    | Accepted(k: nat, tid: nat, chunk: Chunk)
    | Recorded(k: nat, tid: nat, usage: Usage)
    | Finished(k: nat, tid: nat)
    | Sent(k: nat, tid: nat, chunk: Chunk)
    | Dropped(k: nat, tid: nat, chunk: Chunk, buffered: nat)
    | Received(k: nat, chunk: Chunk)
    | MessagesClosed(k: nat)
    | Delivered(k: nat, result: TurnResult)
    | ResultsClosed(k: nat)
    | Panicked(k: nat)

  datatype State = State(
    current: Option<nat>,
    turns: seq<Turn>,
    pcs: map<nat, Pc>,
    log: seq<Event>)

  const INITIAL := State(None, [], map[], [])

  /** The goroutine entry points: the controller's operations. */
  predicate Entry(pc: Pc) {
    match pc
    case Emit(_, e) => e.ECtl?
    case Fin(f) => f.FCtl?
    case Rec(_, r) => r.RCtl?
    case Begin(b) => b.BCtl?
    case Done(_) => false
  }

  /** The locks: the controller's mutex, and for each turn its mutex and the read side, the
      announced write and the held write of its RWMutex. */
  datatype Lock = Ctl | Mu(k: nat) | Shared(k: nat) | Intent(k: nat) | Exclusive(k: nat)

  predicate EmitHolds(e: EmitAt, lock: Lock) {
    match lock
    case Ctl => e.EPeek?
    case Mu(k) => e == ECheck(k)
    case Shared(k) => e == ELock(k) || e == ECheck(k) || e == ESend(k) || e == ERUnlock(k)
    case _ => false
  }

  predicate FinHolds(f: FinAt, lock: Lock) {
    match lock
    case Ctl => !f.FCtl?
    case Mu(k) => f.FMark? && f.k == k
    case Shared(_) => false
    case Intent(k) => f.FDrain? && f.k == k
    case Exclusive(k) => (f.FClose? || f.FUnlock?) && f.k == k
  }

  predicate RecHolds(r: RecAt, lock: Lock) {
    match lock
    case Ctl => !r.RCtl?
    case Mu(k) => r == RStore(k)
    case _ => false
  }

  predicate Holds(pc: Pc, lock: Lock) {
    match pc
    case Emit(_, e) => EmitHolds(e, lock)
    case Fin(f) => FinHolds(f, lock)
    case Rec(_, r) => RecHolds(r, lock)
    case Begin(b) => b.BPeek? && lock.Ctl?
    case Done(_) => false
  }

  predicate Free(s: State, lock: Lock) {
    forall t | t in s.pcs :: !Holds(s.pcs[t], lock)
  }

  /** Turn k; only turns that exist are ever named by a reachable program counter. */
  function At(s: State, k: nat): Turn {
    if k < |s.turns| then s.turns[k] else NEW_TURN
  }

  /** An emitter can step: an announced writer keeps new readers out, as in Go's RWMutex, and a
      context send needs room (or a closed channel) while any other send never waits. */
  predicate EmitReady(s: State, chunk: Chunk, e: EmitAt) {
    match e
    case ECtl => Free(s, Ctl)
    case ERLock(k) => Free(s, Intent(k)) && Free(s, Exclusive(k))
    case ELock(k) => Free(s, Mu(k))
    case ESend(k) => !chunk.context || At(s, k).messagesClosed || |At(s, k).messages| < MESSAGE_CAPACITY
    case _ => true
  }

  predicate FinReady(s: State, f: FinAt) {
    match f
    case FCtl(_, _, _) => Free(s, Ctl)
    case FLock(k, _, _) => Free(s, Mu(k))
    case FAnnounce(k, _) => Free(s, Intent(k)) && Free(s, Exclusive(k))
    case FDrain(k, _) => Free(s, Shared(k))
    case FDeliver(k, _) => At(s, k).resultsClosed || |At(s, k).results| < RESULT_CAPACITY
    case _ => true
  }

  predicate RecReady(s: State, r: RecAt) {
    match r
    case RCtl => Free(s, Ctl)
    case RLock(k) => Free(s, Mu(k))
    case _ => true
  }

  predicate Ready(s: State, pc: Pc) {
    match pc
    case Emit(chunk, e) => EmitReady(s, chunk, e)
    case Fin(f) => FinReady(s, f)
    case Rec(_, r) => RecReady(s, r)
    case Begin(b) => b.BCtl? ==> Free(s, Ctl)
    case Done(_) => false
  }

  /** A context sender may also leave its select because the turn's done channel is closed. */
  predicate MayGiveUp(s: State, pc: Pc) {
    pc.Emit? && pc.e.ESend? && pc.chunk.context && At(s, pc.e.k).doneClosed
  }

  function WithTurn(s: State, k: nat, turn: Turn): State {
    if k < |s.turns| then s.(turns := s.turns[k := turn]) else s
  }

  function Record(s: State, event: Event): State {
    s.(log := s.log + [event])
  }

  function Merge(known: int, reported: int): int {
    if reported != 0 then reported else known
  }

  /** A zero field never replaces a reported one. */
  function MergeUsage(known: Usage, reported: Usage): Usage {
    Usage(Merge(known.input, reported.input), Merge(known.output, reported.output), Merge(known.cacheRead, reported.cacheRead))
  }

  /** One step of an emitter: the state it leaves and its next program counter. */
  function EmitStep(s: State, tid: nat, chunk: Chunk, e: EmitAt): (State, Pc) {
    match e
    case ECtl => (s, Emit(chunk, EPeek))
    case EPeek => (s, if s.current.Some? then Emit(chunk, ERLock(s.current.value)) else Done(false))
    case ERLock(k) => (s, Emit(chunk, ELock(k)))
    case ELock(k) => (s, Emit(chunk, ECheck(k)))
    case ECheck(k) => EmitBody(s, tid, chunk, k)
    case ESend(k) => (SendBody(s, tid, chunk, k), Emit(chunk, ERUnlock(k)))
    case ERUnlock(_) => (s, Done(true))
  }

  /** The section of emit under the turn's mutex: refuse after finish, otherwise keep the text. */
  function EmitBody(s: State, tid: nat, chunk: Chunk, k: nat): (State, Pc) {
    var turn := At(s, k);
    if turn.finished then
      (s, Emit(chunk, ERUnlock(k)))
    else
      var kept := if chunk.text && chunk.content != "" then turn.output + chunk.content else turn.output;
      (Record(WithTurn(s, k, turn.(output := kept)), Accepted(k, tid, chunk)), Emit(chunk, ESend(k)))
  }

  /** The send: an ordinary chunk is dropped when the buffer is full, a closed channel panics. */
  function SendBody(s: State, tid: nat, chunk: Chunk, k: nat): State {
    var turn := At(s, k);
    if turn.messagesClosed then
      Record(s, Panicked(k))
    else if |turn.messages| < MESSAGE_CAPACITY then
      Record(WithTurn(s, k, turn.(messages := turn.messages + [chunk])), Sent(k, tid, chunk))
    else
      Record(s, Dropped(k, tid, chunk, |turn.messages|))
  }

  /** One step of a finisher. */
  function FinStep(s: State, tid: nat, f: FinAt): (State, Pc) {
    match f
    case FCtl(target, status, error) => (s, Fin(FPeek(target, status, error)))
    case FPeek(target, status, error) =>
      var mine := s.current.Some? && (target.Active? || target == Named(s.current.value));
      (s, if mine then Fin(FLock(s.current.value, status, error)) else Done(false))
    case FLock(k, status, error) => (s, Fin(FMark(k, status, error)))
    case FMark(k, status, error) => MarkBody(s, tid, k, status, error)
    case FAnnounce(k, result) => (s, Fin(FDrain(k, result)))
    case FDrain(k, result) => (s, Fin(FClose(k, result)))
    case FClose(k, result) => (CloseBody(s, k), Fin(FUnlock(k, result)))
    case FUnlock(k, result) => (s, Fin(FDeliver(k, result)))
    case FDeliver(k, result) => (DeliverBody(s, k, result), Fin(FSeal(k)))
    case FSeal(k) => (SealBody(s, k), Fin(FClear(k, true)))
    case FClear(_, won) => (s.(current := None), Done(won))
  }

  /** The section of finish under the turn's mutex: the first finisher marks, closes done and builds the result. */
  function MarkBody(s: State, tid: nat, k: nat, status: string, error: string): (State, Pc) {
    var turn := At(s, k);
    if turn.finished then
      (s, Fin(FClear(k, false)))
    else if turn.doneClosed then
      (Record(s, Panicked(k)), Fin(FClear(k, false)))
    else
      (Record(WithTurn(s, k, turn.(finished := true, doneClosed := true)), Finished(k, tid)),
       Fin(FAnnounce(k, TurnResult(status, error, turn.output, turn.usage))))
  }

  function CloseBody(s: State, k: nat): State {
    if At(s, k).messagesClosed then Record(s, Panicked(k))
    else Record(WithTurn(s, k, At(s, k).(messagesClosed := true)), MessagesClosed(k))
  }

  function DeliverBody(s: State, k: nat, result: TurnResult): State {
    if At(s, k).resultsClosed then Record(s, Panicked(k))
    else Record(WithTurn(s, k, At(s, k).(results := At(s, k).results + [result])), Delivered(k, result))
  }

  function SealBody(s: State, k: nat): State {
    if At(s, k).resultsClosed then Record(s, Panicked(k))
    else Record(WithTurn(s, k, At(s, k).(resultsClosed := true)), ResultsClosed(k))
  }

  /** One step of recordPromptDone. */
  function RecStep(s: State, tid: nat, usage: Usage, r: RecAt): (State, Pc) {
    match r
    case RCtl => (s, Rec(usage, RPeek))
    case RPeek => (s, Rec(usage, if s.current.Some? then RLock(s.current.value) else RUnlock))
    case RLock(k) => (s, Rec(usage, RStore(k)))
    case RStore(k) => (StoreBody(s, tid, usage, k), Rec(usage, RUnlock))
    case RUnlock => (s, Done(true))
  }

  function StoreBody(s: State, tid: nat, usage: Usage, k: nat): State {
    var turn := At(s, k);
    if turn.finished then s
    else Record(WithTurn(s, k, turn.(usage := MergeUsage(turn.usage, usage))), Recorded(k, tid, usage))
  }

  /** One step of begin: refuse while a turn is active, otherwise install a new one. */
  function BeginStep(s: State, b: BeginAt): (State, Pc) {
    match b
    case BCtl => (s, Begin(BPeek))
    case BPeek =>
      if s.current.Some? then (s, Done(false))
      else (s.(turns := s.turns + [NEW_TURN], current := Some(|s.turns|)), Done(true))
  }

  function PcStep(s: State, tid: nat, pc: Pc): (State, Pc) {
    match pc
    case Emit(chunk, e) => EmitStep(s, tid, chunk, e)
    case Fin(f) => FinStep(s, tid, f)
    case Rec(usage, r) => RecStep(s, tid, usage, r)
    case Begin(b) => BeginStep(s, b)
    case Done(_) => (s, pc)
  }

  function Goto(s: State, tid: nat, pc: Pc): State {
    s.(pcs := s.pcs[tid := pc])
  }

  /** The next step of goroutine `tid`. */
  function Next(s: State, tid: nat): State
    requires tid in s.pcs
  {
    var (s', pc') := PcStep(s, tid, s.pcs[tid]);
    Goto(s', tid, pc')
  }

  /** A context sender leaves its select through the closed done channel. */
  function GiveUp(s: State, tid: nat): State
    requires tid in s.pcs && MayGiveUp(s, s.pcs[tid])
  {
    var pc := s.pcs[tid];
    Goto(Record(s, Dropped(pc.e.k, tid, pc.chunk, |At(s, pc.e.k).messages|)), tid, Emit(pc.chunk, ERUnlock(pc.e.k)))
  }

  datatype Step =
    | Spawn(tid: nat, pc: Pc)   // a caller enters one of the operations
    | Run(tid: nat)
    | Leave(tid: nat)           // a context sender gives up
    | Receive(k: nat)           // the consumer reads a message
    | ReceiveResult(k: nat)     // the consumer reads the result

  predicate Possible(s: State, step: Step) {
    match step
    case Spawn(tid, pc) => tid !in s.pcs && Entry(pc)
    case Run(tid) => tid in s.pcs && Ready(s, s.pcs[tid])
    case Leave(tid) => tid in s.pcs && MayGiveUp(s, s.pcs[tid])
    case Receive(k) => k < |s.turns| && s.turns[k].messages != []
    case ReceiveResult(k) => k < |s.turns| && s.turns[k].results != []
  }

  function Apply(s: State, step: Step): State
    requires Possible(s, step)
  {
    match step
    case Spawn(tid, pc) => Goto(s, tid, pc)
    case Run(tid) => Next(s, tid)
    case Leave(tid) => GiveUp(s, tid)
    case Receive(k) =>
      Record(WithTurn(s, k, At(s, k).(messages := At(s, k).messages[1..])), Received(k, At(s, k).messages[0]))
    case ReceiveResult(k) => WithTurn(s, k, At(s, k).(results := At(s, k).results[1..]))
  }

  /** The steps can be taken one after the other from `s`. */
  predicate CanRun(s: State, steps: seq<Step>)
    decreases |steps|
  {
    steps == [] || (Possible(s, steps[0]) && CanRun(Apply(s, steps[0]), steps[1..]))
  }

  function After(s: State, steps: seq<Step>): State
    requires CanRun(s, steps)
    decreases |steps|
  {
    if steps == [] then s else After(Apply(s, steps[0]), steps[1..])
  }
}
