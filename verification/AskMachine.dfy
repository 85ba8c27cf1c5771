/** The actor loop, `GoCommand.Execute` and the readers of `ask.New` running together.

    Every message is a command asked for by one caller; call number `c` of `Receive` is ask
    number `c`, with its own delegate `fns(c, _)`, its own cell and its own reader. The handler
    is the base one, which calls `Execute` and nothing else (`goactor.go:41-43`). */
module AskMachine {
  import opened Basics
  import opened Commands
  import A = ActorMachine
  import T = ActorTheorems

  datatype AskError = OfCommand(e: CmdError) | ReaderCtx | AskTimeout

  /** Where the reader in `Await` is. `Answered(val, err)`: no value stands for the zero value. */
  datatype Reader<R> =
    | Waiting                // at the select
    | GotValue(v: R)         // received a value, about to read the error
    | GotClosed              // saw the channel closed and empty, about to read the error
    | Answered(val: Option<R>, err: Option<AskError>)

  /** `applied` is history: the asks whose delegate was called, in order. */
  datatype Sys<!E, R> = Sys(
    a: A.State, fns: (nat, E) -> Run<E, R>, e0: E, entity: E,
    cells: map<nat, Cell<R>>, pc: Pc<R>, readers: map<nat, Reader<R>>, applied: seq<nat>)

  ghost predicate Start<E, R>(s: Sys<E, R>) {
    && (exists cap: nat, timed: bool :: s.a == A.Init(cap, timed))
    && s.entity == s.e0 && s.cells == map[] && s.pc == Over && s.readers == map[] && s.applied == []
  }

  datatype Event =
    | Actor(e: A.Event)
    | Execute
    | Await(c: nat)
    | ReadValue(c: nat)
    | ReadClosed(c: nat)
    | ReadError(c: nat)
    | ReaderCtxEnds(c: nat)
    | ReaderTimer(c: nat)

  predicate ReaderAt<E, R(==)>(s: Sys<E, R>, c: nat, r: Reader<R>) { c in s.readers && s.readers[c] == r }

  ghost predicate Enabled<E, R>(s: Sys<E, R>, ev: Event) {
    match ev
    case Actor(e) => A.Enabled(s.a, e) && (e.HandlerEnds? ==> s.pc.Over? && !e.panics)
    case Execute => s.a.loop.Executing? && !s.pc.Over? && s.a.loop.m in s.cells
    case Await(c) => c in s.a.calls && s.a.calls[c] == A.Returned(None) && c !in s.readers
    case ReadValue(c) => ReaderAt(s, c, Waiting) && c in s.cells && s.cells[c].held.Some?
    case ReadClosed(c) => ReaderAt(s, c, Waiting) && c in s.cells && s.cells[c].held.None? && s.cells[c].closes > 0
    case ReadError(c) => c in s.readers && (s.readers[c].GotValue? || s.readers[c].GotClosed?) && c in s.cells
    case ReaderCtxEnds(c) => ReaderAt(s, c, Waiting)
    case ReaderTimer(c) => ReaderAt(s, c, Waiting)
  }

  /** The outcome of `cmd.Error()` as the asker's error. */
  function Wrap(err: Option<CmdError>): Option<AskError> {
    if err.Some? then Some(OfCommand(err.value)) else None
  }

  ghost function Apply<E, R>(s: Sys<E, R>, ev: Event): Sys<E, R>
    requires Enabled(s, ev)
  {
    match ev
    case Actor(e) =>
      s.(a := A.Apply(s.a, e),
         pc := if e.LoopDefault? then Begin else s.pc,
         cells := if e.RecvLoad? then s.cells[e.c := Fresh()] else s.cells)
    case Execute => ApplyExecute(s)
    case Await(c) => s.(readers := s.readers[c := Waiting])
    case ReadValue(c) =>
      s.(readers := s.readers[c := GotValue(s.cells[c].held.value)], cells := s.cells[c := s.cells[c].(held := None)])
    case ReadClosed(c) => s.(readers := s.readers[c := GotClosed])
    case ReadError(c) =>
      var val := if s.readers[c].GotValue? then Some(s.readers[c].v) else None;
      s.(readers := s.readers[c := Answered(val, Wrap(s.cells[c].err))])
    case ReaderCtxEnds(c) => s.(readers := s.readers[c := Answered(None, Some(ReaderCtx))])
    case ReaderTimer(c) => s.(readers := s.readers[c := Answered(None, Some(AskTimeout))])
  }

  /** One step of the running command; only the call of the delegate touches the entity. */
  ghost function ApplyExecute<E, R>(s: Sys<E, R>): Sys<E, R>
    requires Enabled(s, Execute)
  {
    var c := s.a.loop.m;
    var run := s.fns(c, s.entity);
    var (next, cell) := Step(s.pc, s.cells[c], s.a.ctx != A.Live, run);
    var t := s.(pc := next, cells := s.cells[c := cell]);
    if s.pc.Call? then t.(entity := run.entity, applied := s.applied + [c]) else t
  }

  ghost predicate Runnable<E, R>(s: Sys<E, R>, evs: seq<Event>)
    decreases |evs|
  {
    evs == [] || (Enabled(s, evs[0]) && Runnable(Apply(s, evs[0]), evs[1..]))
  }

  ghost function Exec<E, R>(s: Sys<E, R>, evs: seq<Event>): Sys<E, R>
    requires Runnable(s, evs)
    decreases |evs|
  {
    if evs == [] then s else Exec(Apply(s, evs[0]), evs[1..])
  }

  // ---------------------------------------------------------------- the sequential object

  /** The entity after the delegates of `asks`, one after the other. */
  ghost function Fold<E, R>(fns: (nat, E) -> Run<E, R>, e0: E, asks: seq<nat>): E {
    if asks == [] then e0
    else fns(asks[|asks| - 1], Fold(fns, e0, asks[..|asks| - 1])).entity
  }

  /** Ask `c` was applied at a place of the sequential run where its delegate gives `v`. */
  ghost predicate Placed<E, R>(s: Sys<E, R>, c: nat, v: R) {
    exists k: nat :: PlacedAt(s, c, v, k)
  }

  ghost predicate PlacedAt<E, R>(s: Sys<E, R>, c: nat, v: R, k: nat) {
    && k < |s.applied| && s.applied[k] == c
    && s.fns(c, Fold(s.fns, s.e0, s.applied[..k])) == Gave(Fold(s.fns, s.e0, s.applied[..k + 1]), v)
  }

  ghost predicate RefusedAt<E, R>(s: Sys<E, R>, c: nat, code: int, k: nat) {
    && k < |s.applied| && s.applied[k] == c
    && s.fns(c, Fold(s.fns, s.e0, s.applied[..k])) == Refused(Fold(s.fns, s.e0, s.applied[..k + 1]), code)
  }

  ghost predicate BlewAt<E, R>(s: Sys<E, R>, c: nat, k: nat) {
    && k < |s.applied| && s.applied[k] == c
    && s.fns(c, Fold(s.fns, s.e0, s.applied[..k])) == Blew(Fold(s.fns, s.e0, s.applied[..k + 1]))
  }

  /** Why the command of ask `c` failed: its delegate was applied at a place of the sequential run
      where it returns that error, or panics; or it was never applied. */
  ghost predicate Cause<E, R>(s: Sys<E, R>, c: nat, err: CmdError) {
    match err
    case ErrDelegate(code) => exists k: nat :: RefusedAt(s, c, code, k)
    case ErrPanic => exists k: nat :: BlewAt(s, c, k)
    case ErrCtxCancelled => c !in s.applied
  }

  /** The state recorded with an error. */
  function StatusOf(err: CmdError): Status {
    match err case ErrDelegate(_) => Failed case ErrPanic => Panic case ErrCtxCancelled => Canceled
  }

  // ---------------------------------------------------------------- invariants

  /** Where the command of ask `c` is: not begun, under way, or over. */
  ghost function Stage<E, R>(s: Sys<E, R>, c: nat): Option<Pc<R>> {
    if c !in s.a.executed then None
    else if s.a.loop == A.Executing(c) then Some(s.pc)
    else Some(Over)
  }

  /** The reader gave up, or has not come to the channel yet. */
  ghost predicate Outside<R>(readers: map<nat, Reader<R>>, c: nat) {
    c in readers ==>
      || readers[c].Waiting?
      || readers[c] == Answered(None, Some(ReaderCtx))
      || readers[c] == Answered(None, Some(AskTimeout))
  }

  /** A value is in the buffer or with the reader, and it is the delegate's at its place. */
  ghost predicate Delivered<E, R>(s: Sys<E, R>, c: nat)
    requires c in s.cells
  {
    match s.cells[c].held
    case Some(v) => Outside(s.readers, c) && Placed(s, c, v)
    case None =>
      && c in s.readers
      && match s.readers[c]
         case GotValue(v) => Placed(s, c, v)
         case Answered(Some(v), err) => err.None? && Placed(s, c, v)
         case _ => false
  }

  /** What the cell and the reader of ask `c` can be at each stage of its command. */
  ghost predicate CellOk<E, R>(s: Sys<E, R>, c: nat)
    requires c in s.cells
  {
    var cell := s.cells[c];
    match Stage(s, c)
    case None => cell == Fresh() && Outside(s.readers, c)
    case Some(pc) =>
      match pc
      case Begin => cell == Fresh() && Outside(s.readers, c)
      case Check => cell == Cell(Started, None, None, 0) && Outside(s.readers, c)
      case Call => cell == Cell(Started, None, None, 0) && Outside(s.readers, c)
      case Record(st, err) =>
        cell == Cell(Started, None, None, 0) && Outside(s.readers, c) && st == StatusOf(err) && Cause(s, c, err)
      case Send(v) => cell == Cell(Started, None, None, 0) && Outside(s.readers, c) && Placed(s, c, v)
      case Finish => cell.state == Started && cell.err.None? && cell.closes == 0 && Delivered(s, c)
      case Close => cell.closes == 0 && Ended(s, c)
      case Over => cell.closes == 1 && Ended(s, c)
  }

  /** The command's final state is recorded. */
  ghost predicate Ended<E, R>(s: Sys<E, R>, c: nat)
    requires c in s.cells
  {
    var cell := s.cells[c];
    || (cell.state == Finished && cell.err.None? && Delivered(s, c))
    || (FailedFor(s, c) && cell.held.None? && (Outside(s.readers, c) || SawFailure(s, c)))
  }

  /** The recorded state and error are those of what went wrong. */
  ghost predicate FailedFor<E, R>(s: Sys<E, R>, c: nat)
    requires c in s.cells
  {
    var cell := s.cells[c];
    cell.err.Some? && cell.state == StatusOf(cell.err.value) && Cause(s, c, cell.err.value)
  }

  ghost predicate SawFailure<E, R>(s: Sys<E, R>, c: nat)
    requires c in s.cells
  {
    && c in s.readers && s.cells[c].closes == 1
    && (s.readers[c].GotClosed? || s.readers[c] == Answered(None, Wrap(s.cells[c].err)))
  }

  /** The delegates that were called are those of the executed messages, except that the last
      message's is missing before its call, or for good if it found the context done. */
  ghost predicate AppliedOk<E, R>(s: Sys<E, R>) {
    && (s.applied == s.a.executed || (LastMissing(s) && (s.a.ctx != A.Live || NotCalled(s))))
    && (NotCalled(s) ==> LastMissing(s))
  }

  ghost predicate LastMissing<E, R>(s: Sys<E, R>) {
    s.a.executed != [] && s.applied == s.a.executed[..|s.a.executed| - 1]
  }

  /** The handler is at a command whose delegate was not called yet. */
  predicate NotCalled<E, R>(s: Sys<E, R>) { s.a.loop.Executing? && (s.pc.Begin? || s.pc.Check? || s.pc.Call?) }

  ghost predicate SysInv<E, R>(s: Sys<E, R>) {
    && A.Inv(s.a)
    && (forall c :: c in s.cells <==> c in s.a.calls)
    && (forall c :: c in s.readers ==> c in s.a.accepted)
    && (forall c :: c in s.cells ==> CellOk(s, c))
    && s.entity == Fold(s.fns, s.e0, s.applied)
    && AppliedOk(s)
  }

  // ---------------------------------------------------------------- preservation

  lemma PlacedStays<E, R>(s: Sys<E, R>, t: Sys<E, R>, c: nat, v: R)
    requires Placed(s, c, v) && s.applied <= t.applied && t.fns == s.fns && t.e0 == s.e0
    ensures Placed(t, c, v)
  {
    var k: nat :| PlacedAt(s, c, v, k);
    assert t.applied[..k] == s.applied[..k] && t.applied[..k + 1] == s.applied[..k + 1];
    assert PlacedAt(t, c, v, k);
  }

  lemma CauseStays<E, R>(s: Sys<E, R>, t: Sys<E, R>, c: nat, err: CmdError)
    requires Cause(s, c, err) && s.applied <= t.applied && t.fns == s.fns && t.e0 == s.e0
    requires c in t.applied ==> c in s.applied
    ensures Cause(t, c, err)
  {
    match err
    case ErrDelegate(code) =>
      var k: nat :| RefusedAt(s, c, code, k);
      assert t.applied[..k] == s.applied[..k] && t.applied[..k + 1] == s.applied[..k + 1];
      assert RefusedAt(t, c, code, k);
    case ErrPanic =>
      var k: nat :| BlewAt(s, c, k);
      assert t.applied[..k] == s.applied[..k] && t.applied[..k + 1] == s.applied[..k + 1];
      assert BlewAt(t, c, k);
    case ErrCtxCancelled =>
  }

  /** What a cell says about its delegate's place, or about what went wrong, stays true. */
  lemma ResultStays<E, R>(s: Sys<E, R>, t: Sys<E, R>, c: nat)
    requires c in s.cells && s.applied <= t.applied && t.fns == s.fns && t.e0 == s.e0
    requires c in t.applied ==> c in s.applied
    ensures Delivered(s, c) ==>
      match s.cells[c].held
      case Some(v) => Placed(t, c, v)
      case None =>
        match s.readers[c]
        case GotValue(v) => Placed(t, c, v)
        case Answered(Some(v), _) => Placed(t, c, v)
        case _ => true
    ensures FailedFor(s, c) ==> Cause(t, c, s.cells[c].err.value)
  {
    if Delivered(s, c) {
      match s.cells[c].held
      case Some(v) => PlacedStays(s, t, c, v);
      case None =>
        match s.readers[c]
        case GotValue(v) => PlacedStays(s, t, c, v);
        case Answered(Some(v), _) => PlacedStays(s, t, c, v);
    }
    if FailedFor(s, c) { CauseStays(s, t, c, s.cells[c].err.value); }
  }

  /** An ask whose stage, cell and reader are untouched keeps its invariant. */
  lemma Untouched<E, R>(s: Sys<E, R>, t: Sys<E, R>, c: nat)
    requires c in s.cells && CellOk(s, c) && c in t.cells && t.cells[c] == s.cells[c]
    requires Stage(t, c) == Stage(s, c)
    requires (c in t.readers <==> c in s.readers) && (c in s.readers ==> t.readers[c] == s.readers[c])
    requires s.applied <= t.applied && t.fns == s.fns && t.e0 == s.e0
    requires c in t.applied ==> c in s.applied
    ensures CellOk(t, c)
  {
    hide Placed, Cause;
    ResultStays(s, t, c);
    match Stage(s, c)
    case Some(Send(v)) => PlacedStays(s, t, c, v);
    case Some(Record(_, err)) => CauseStays(s, t, c, err);
    case _ =>
  }

  lemma ExecutedAreAccepted(a: A.State, c: nat)
    requires A.Inv(a) && c in a.executed
    ensures c in a.accepted && c in a.calls && a.calls[c] == A.Returned(None)
  {
    var i :| 0 <= i < |a.executed| && a.executed[i] == c;
    assert a.accepted[i] == c;
  }

  /** The message the loop is about to run was never run before. */
  lemma HeldIsNew(a: A.State)
    requires A.Inv(a) && a.loop.Holding?
    ensures a.loop.m !in a.executed && a.loop.m in a.calls
  {
    var n := |a.executed|;
    assert a.accepted[n] == a.loop.m;
    forall i | 0 <= i < n ensures a.executed[i] != a.loop.m {
      assert a.accepted[i] == a.executed[i];
    }
  }

  lemma ActorKeeps<E, R>(s: Sys<E, R>, e: A.Event)
    requires SysInv(s) && Enabled(s, Actor(e))
    ensures SysInv(Apply(s, Actor(e)))
  {
    var t := Apply(s, Actor(e));
    A.StepInv(s.a, e);
    CallsStep(s.a, e);
    T.HistoryStep(s.a, e);
    forall c | c in t.cells ensures CellOk(t, c) { ActorCellOk(s, e, c); }
    AppliedStep(s, e);
  }

  /** Which messages were executed changes only at the inner select's default case. */
  lemma ExecutedStep(a: A.State, e: A.Event)
    requires A.LoopInv(a) && A.Enabled(a, e)
    ensures !e.LoopDefault? ==> A.Apply(a, e).executed == a.executed
    ensures !e.LoopDefault? && A.Apply(a, e).loop.Executing? ==> A.Apply(a, e).loop == a.loop
    ensures a.loop.Executing? && A.Apply(a, e).loop != a.loop ==> e.HandlerEnds?
    ensures a.ctx != A.Live ==> A.Apply(a, e).ctx != A.Live
  {
  }

  lemma ActorCellOk<E, R>(s: Sys<E, R>, e: A.Event, c: nat)
    requires SysInv(s) && Enabled(s, Actor(e)) && c in Apply(s, Actor(e)).cells
    ensures CellOk(Apply(s, Actor(e)), c)
  {
    hide Placed, Cause, Fold, AppliedOk;
    if e.RecvLoad? && c == e.c {
      FreshCellOk(s, e);
    } else if e.LoopDefault? {
      HeldIsNew(s.a);
      if c != s.a.loop.m { Untouched(s, Apply(s, Actor(e)), c); }
    } else {
      ExecutedStep(s.a, e);
      Untouched(s, Apply(s, Actor(e)), c);
    }
  }

  lemma FreshCellOk<E, R>(s: Sys<E, R>, e: A.Event)
    requires SysInv(s) && Enabled(s, Actor(e)) && e.RecvLoad?
    ensures e.c in Apply(s, Actor(e)).cells && CellOk(Apply(s, Actor(e)), e.c)
  {
    hide Placed, Cause, Fold, AppliedOk;
    if e.c in s.a.executed { ExecutedAreAccepted(s.a, e.c); }
    assert e.c !in s.readers;
  }

  lemma CallsStep(a: A.State, e: A.Event)
    requires A.Enabled(a, e)
    ensures A.Apply(a, e).calls.Keys == a.calls.Keys + (if e.RecvLoad? then {e.c} else {})
  {
  }

  lemma AppliedStep<E, R>(s: Sys<E, R>, e: A.Event)
    requires SysInv(s) && Enabled(s, Actor(e))
    ensures AppliedOk(Apply(s, Actor(e)))
  {
    if e.LoopDefault? { AppliedAtDefault(s, e); } else { ExecutedStep(s.a, e); AppliedElsewhere(s, e); }
  }

  lemma AppliedAtDefault<E, R>(s: Sys<E, R>, e: A.Event)
    requires AppliedOk(s) && Enabled(s, Actor(e)) && e.LoopDefault?
    ensures AppliedOk(Apply(s, Actor(e)))
  {
  }

  lemma AppliedElsewhere<E, R>(s: Sys<E, R>, e: A.Event)
    requires AppliedOk(s) && Enabled(s, Actor(e)) && !e.LoopDefault?
    requires var b := A.Apply(s.a, e);
      && b.executed == s.a.executed && (s.a.ctx != A.Live ==> b.ctx != A.Live)
      && (b.loop.Executing? ==> b.loop == s.a.loop)
      && (s.a.loop.Executing? && b.loop != s.a.loop ==> e.HandlerEnds?)
    ensures AppliedOk(Apply(s, Actor(e)))
  {
    hide A.Enabled, A.Apply;
  }

  lemma ExecuteKeeps<E, R>(s: Sys<E, R>)
    requires SysInv(s) && Enabled(s, Execute)
    ensures SysInv(Apply(s, Execute))
  {
    hide A.Inv, CellOk, Fold, AppliedOk, NotCalled, ApplyExecute;
    ExecuteShape(s);
    ExecuteApplied(s);
    forall c | c in Apply(s, Execute).cells ensures CellOk(Apply(s, Execute), c) { ExecuteCell(s, c); }
  }

  lemma ExecuteShape<E, R>(s: Sys<E, R>)
    requires Enabled(s, Execute)
    ensures var t := Apply(s, Execute); t.a == s.a && t.cells.Keys == s.cells.Keys && t.readers == s.readers
  {
  }

  lemma ExecuteApplied<E, R>(s: Sys<E, R>)
    requires SysInv(s) && Enabled(s, Execute)
    ensures var t := Apply(s, Execute);
      && t.entity == Fold(t.fns, t.e0, t.applied) && AppliedOk(t)
  {
    hide A.Inv, CellOk, Fold, CalledOk;
    if s.pc.Call? { CallApplies(s); } else { OthersApplyNothing(s); }
  }

  lemma OthersApplyNothing<E, R>(s: Sys<E, R>)
    requires AppliedOk(s) && Enabled(s, Execute) && !s.pc.Call?
    ensures var t := Apply(s, Execute);
      && t.applied == s.applied && t.entity == s.entity && t.fns == s.fns && t.e0 == s.e0
      && AppliedOk(t)
  {
  }

  lemma ExecuteCell<E, R>(s: Sys<E, R>, c: nat)
    requires SysInv(s) && Enabled(s, Execute) && c in s.cells
    ensures CellOk(Apply(s, Execute), c)
  {
    hide A.LifeInv, CellOk, Placed, Cause, Fold;
    var m := s.a.loop.m;
    assert m in s.a.executed by { assert s.a.executed[|s.a.executed| - 1] == m; }
    if c != m {
      Untouched(s, Apply(s, Execute), c);
    } else {
      if s.pc.Call? { CallApplies(s); }
      if NotCalled(s) { RunningIsNew(s.a); }
      ExecuteCellOk(s);
    }
  }

  /** What follows the call of ask `c`'s delegate tells what the call did. */
  ghost predicate CalledOk<E, R>(t: Sys<E, R>, c: nat) {
    && (t.pc.Send? ==> Placed(t, c, t.pc.v))
    && (t.pc.Record? ==> t.pc.state == StatusOf(t.pc.err) && Cause(t, c, t.pc.err))
  }

  /** The call of the delegate extends the sequential run by this ask, at its end. */
  lemma CallApplies<E, R>(s: Sys<E, R>)
    requires SysInv(s) && Enabled(s, Execute) && s.pc.Call?
    ensures var t := Apply(s, Execute);
      && t.applied == s.a.executed && t.entity == Fold(t.fns, t.e0, t.applied)
      && CalledOk(t, s.a.loop.m)
  {
    hide A.LifeInv, A.TakenInv, CellOk;
    var t := Apply(s, Execute);
    var n, m := |s.applied|, s.a.loop.m;
    assert t.applied[..n] == s.applied && t.applied[..n + 1] == t.applied;
    match t.pc
    case Send(v) => assert PlacedAt(t, m, v, n);
    case Record(_, ErrDelegate(code)) => assert RefusedAt(t, m, code, n);
    case Record(_, ErrPanic) => assert BlewAt(t, m, n);
  }

  /** The running command's delegate was not applied before its call. */
  lemma RunningIsNew(a: A.State)
    requires A.Inv(a) && a.loop.Executing?
    ensures a.loop.m !in a.executed[..|a.executed| - 1]
  {
    var n := |a.executed| - 1;
    assert a.accepted[n] == a.executed[n] == a.loop.m;
    forall i | 0 <= i < n ensures a.executed[i] != a.loop.m {
      assert a.accepted[i] == a.executed[i];
    }
  }

  lemma ExecuteCellOk<E, R>(s: Sys<E, R>)
    requires Enabled(s, Execute) && s.a.loop.m in s.a.executed && CellOk(s, s.a.loop.m)
    requires NotCalled(s) ==> s.a.loop.m !in s.applied
    requires s.pc.Call? ==> CalledOk(Apply(s, Execute), s.a.loop.m)
    ensures CellOk(Apply(s, Execute), s.a.loop.m)
  {
    hide Placed;
    var t := Apply(s, Execute);
    var m := s.a.loop.m;
    assert Stage(s, m) == Some(s.pc) && Stage(t, m) == Some(t.pc);
    match s.pc
    case Send(v) => PlacedStays(s, t, m, v);
    case Record(_, err) => CauseStays(s, t, m, err);
    case Finish => DeliveredStays(s, t, m);
    case Close => CloseCellOk(s);
    case _ =>
  }

  lemma CloseCellOk<E, R>(s: Sys<E, R>)
    requires Enabled(s, Execute) && s.pc.Close? && s.a.loop.m in s.a.executed && CellOk(s, s.a.loop.m)
    ensures CellOk(Apply(s, Execute), s.a.loop.m)
  {
    hide Placed, Cause;
    var t := Apply(s, Execute);
    var m := s.a.loop.m;
    assert Stage(s, m) == Some(s.pc) && Stage(t, m) == Some(t.pc);
    ResultStays(s, t, m);
    if s.cells[m].state == Finished { DeliveredStays(s, t, m); }
  }

  lemma DeliveredStays<E, R>(s: Sys<E, R>, t: Sys<E, R>, c: nat)
    requires c in s.cells && Delivered(s, c) && c in t.cells && t.cells[c].held == s.cells[c].held
    requires t.readers == s.readers && t.applied == s.applied && t.fns == s.fns && t.e0 == s.e0
    ensures Delivered(t, c)
  {
    match s.cells[c].held
    case Some(v) => PlacedStays(s, t, c, v);
    case None =>
      match s.readers[c]
      case GotValue(v) => PlacedStays(s, t, c, v);
      case Answered(Some(v), _) => PlacedStays(s, t, c, v);
  }

  predicate OfReader(ev: Event) { !ev.Actor? && !ev.Execute? }

  lemma ReaderKeeps<E, R>(s: Sys<E, R>, ev: Event)
    requires SysInv(s) && Enabled(s, ev) && OfReader(ev)
    ensures SysInv(Apply(s, ev))
  {
    hide A.LifeInv, A.FlowInv, CellOk, Fold;
    var t := Apply(s, ev);
    forall c | c in t.cells ensures CellOk(t, c) {
      if c != ev.c { Untouched(s, t, c); } else { ReaderCellOk(s, ev); }
    }
  }

  lemma ReaderCellOk<E, R>(s: Sys<E, R>, ev: Event)
    requires OfReader(ev)
    requires ev.c in s.cells && CellOk(s, ev.c) && Enabled(s, ev)
    ensures CellOk(Apply(s, ev), ev.c)
  {
    var t, c := Apply(s, ev), ev.c;
    hide Placed, Cause;
    assert Stage(t, c) == Stage(s, c) && CellOk(s, c);
    ResultStays(s, t, c);
    match Stage(s, c)
    case Some(Send(v)) => PlacedStays(s, t, c, v);
    case Some(Record(_, err)) => CauseStays(s, t, c, err);
    case _ =>
  }

  lemma StepKeeps<E, R>(s: Sys<E, R>, ev: Event)
    requires SysInv(s) && Enabled(s, ev)
    ensures SysInv(Apply(s, ev))
  {
    match ev
    case Actor(e) => ActorKeeps(s, e);
    case Execute => ExecuteKeeps(s);
    case _ => ReaderKeeps(s, ev);
  }

  lemma {:induction false} RunKeeps<E, R>(s: Sys<E, R>, evs: seq<Event>)
    requires SysInv(s) && Runnable(s, evs)
    ensures SysInv(Exec(s, evs))
    decreases |evs|
  {
    if evs != [] {
      StepKeeps(s, evs[0]);
      RunKeeps(Apply(s, evs[0]), evs[1..]);
    }
  }
}
