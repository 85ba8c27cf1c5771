/** The one-shot command of `pkg/command/gocommand.go`: a cell that `Execute` fills and closes
    step by step while a reader may be looking. */
module Commands {
  import opened Basics

  datatype Status = Created | Started | Finished | Failed | Canceled | Panic

  datatype CmdError = ErrCtxCancelled | ErrDelegate(code: int) | ErrPanic

  /** What one call of the delegate does to the entity, and how it ends. */
  datatype Run<E, R> = Gave(entity: E, val: R) | Refused(entity: E, code: int) | Blew(entity: E)

  /** The fields of `GoCommand`: `held` is the one-place buffer of the result channel. */
  datatype Cell<R> = Cell(state: Status, err: Option<CmdError>, held: Option<R>, closes: nat)

  function Fresh<R>(): Cell<R> { Cell(Created, None, None, 0) }

  /** Where `Execute` is; each step is one critical section, one channel operation or the delegate. */
  datatype Pc<R> =
    | Begin                              // before syncState(Started, nil)
    | Check                              // at the select on ctx
    | Call                               // about to call the delegate
    | Record(state: Status, err: CmdError) // before the syncState of a failure
    | Send(v: R)                         // before done <- v
    | Finish                             // before syncState(Finished, nil)
    | Close                              // before close(done)
    | Over

  /** `syncState`. */
  function Sync<R>(cell: Cell<R>, state: Status, err: Option<CmdError>): Cell<R> {
    cell.(state := state, err := err)
  }

  /** Where `Execute` goes after the delegate returned or panicked. */
  function AfterCall<E, R>(run: Run<E, R>): Pc<R> {
    match run
    case Gave(_, v) => Send(v)
    case Refused(_, code) => Record(Failed, ErrDelegate(code))
    case Blew(_) => Record(Panic, ErrPanic)
  }

  /** One step of `Execute`. */
  function Step<E, R>(pc: Pc<R>, cell: Cell<R>, ctxDone: bool, run: Run<E, R>): (Pc<R>, Cell<R>)
    requires !pc.Over?
  {
    match pc
    case Begin => (Check, Sync(cell, Started, None))
    case Check => (if ctxDone then Record(Canceled, ErrCtxCancelled) else Call, cell)
    case Call => (AfterCall(run), cell)
    case Record(state, err) => (Close, Sync(cell, state, Some(err)))
    case Send(v) => (Finish, cell.(held := Some(v)))
    case Finish => (Close, Sync(cell, Finished, None))
    case Close => (Over, cell.(closes := cell.closes + 1))
  }

  function Left<R>(pc: Pc<R>): nat {
    match pc
    case Begin => 6 case Check => 5 case Call => 4 case Send(_) => 3
    case Record(_, _) => 2 case Finish => 2 case Close => 1 case Over => 0
  }

  /** The cells a run of `Execute` goes through from `pc` on, as long as nobody reads. */
  function Cells<E, R>(pc: Pc<R>, cell: Cell<R>, ctxDone: bool, run: Run<E, R>): seq<Cell<R>>
    decreases Left(pc)
  {
    if pc.Over? then []
    else
      var (next, cell') := Step(pc, cell, ctxDone, run);
      [cell'] + Cells(next, cell', ctxDone, run)
  }

  /** How a fresh command ends. */
  function Outcome<E, R>(ctxDone: bool, run: Run<E, R>): Cell<R> {
    if ctxDone then Cell(Canceled, Some(ErrCtxCancelled), None, 1)
    else match run
      case Gave(_, v) => Cell(Finished, None, Some(v), 1)
      case Refused(_, code) => Cell(Failed, Some(ErrDelegate(code)), None, 1)
      case Blew(_) => Cell(Panic, Some(ErrPanic), None, 1)
  }

  function Order(state: Status): nat {
    match state case Created => 0 case Started => 1 case _ => 2
  }

  /** How every run begins, up to the delegate's return or to the finding that the context is done. */
  lemma HeadOfCells<E, R>(ctxDone: bool, run: Run<E, R>)
    ensures var c1 := Sync(Fresh<R>(), Started, None);
      Cells(Begin, Fresh<R>(), ctxDone, run)
        == [c1, c1] + (if ctxDone then Cells(Record(Canceled, ErrCtxCancelled), c1, ctxDone, run)
                       else [c1] + Cells(AfterCall(run), c1, ctxDone, run))
  {
    var c1 := Sync(Fresh<R>(), Started, None);
    assert Cells(Begin, Fresh<R>(), ctxDone, run) == [c1] + Cells(Check, c1, ctxDone, run);
    if !ctxDone {
      assert Cells(Check, c1, ctxDone, run) == [c1] + Cells(Call, c1, ctxDone, run);
      assert Cells(Call, c1, ctxDone, run) == [c1] + Cells(AfterCall(run), c1, ctxDone, run);
    }
  }

  /** Run undisturbed on a fresh command, the steps end in the outcome, the state goes only from
      Created to Started to a terminal one, and the channel is closed by the last step alone. */
  lemma FreshRun<E, R>(ctxDone: bool, run: Run<E, R>)
    ensures var cs := Cells(Begin, Fresh<R>(), ctxDone, run);
      && cs != [] && cs[|cs| - 1] == Outcome(ctxDone, run)
      && (forall i, j :: 0 <= i < j < |cs| ==> Order(cs[i].state) <= Order(cs[j].state))
      && (forall i :: 0 <= i < |cs| - 1 ==> cs[i].closes == 0)
  {
    var c1 := Sync(Fresh<R>(), Started, None);
    HeadOfCells(ctxDone, run);
    if ctxDone {
      TailRecord(Canceled, ErrCtxCancelled, c1, ctxDone, run);
    } else {
      match run
      case Gave(_, v) => TailSend(v, c1, ctxDone, run);
      case Refused(_, code) => TailRecord(Failed, ErrDelegate(code), c1, ctxDone, run);
      case Blew(_) => TailRecord(Panic, ErrPanic, c1, ctxDone, run);
    }
  }

  lemma TailRecord<E, R>(state: Status, err: CmdError, c: Cell<R>, ctxDone: bool, run: Run<E, R>)
    ensures var d := Sync(c, state, Some(err));
      Cells(Record(state, err), c, ctxDone, run) == [d, d.(closes := c.closes + 1)]
  {
    var d := Sync(c, state, Some(err));
    var last := d.(closes := c.closes + 1);
    assert Cells(Close, d, ctxDone, run) == [last] + Cells(Over, last, ctxDone, run);
  }

  lemma TailSend<E, R>(v: R, c: Cell<R>, ctxDone: bool, run: Run<E, R>)
    ensures var d := c.(held := Some(v));
      var e := Sync(d, Finished, None);
      Cells(Send(v), c, ctxDone, run) == [d, e, e.(closes := c.closes + 1)]
  {
    var d := c.(held := Some(v));
    var e := Sync(d, Finished, None);
    assert Cells(Finish, d, ctxDone, run) == [e] + Cells(Close, e, ctxDone, run);
    var last := e.(closes := c.closes + 1);
    assert Cells(Close, e, ctxDone, run) == [last] + Cells(Over, last, ctxDone, run);
  }

  /** `GoCommand` in its own form. `trace` records the cell after every step, which is what a
      concurrent reader can see. */
  class GoCommand<E, R> {
    var state: Status
    var err: Option<CmdError>
    var done: Option<R>  // the buffer of the result channel
    var closed: bool
    ghost var trace: seq<Cell<R>>

    ghost function View(): Cell<R> reads this { Cell(state, err, done, if closed then 1 else 0) }

    constructor ()
      ensures View() == Fresh() && trace == []
    {
      state, err, done, closed := Created, None, None, false;
      trace := [];
    }

    method SyncState(s: Status, e: Option<CmdError>)
      modifies this
      ensures View() == Sync(old(View()), s, e) && trace == old(trace) + [View()]
    {
      err := e;
      state := s;
      trace := trace + [View()];
    }

    /** Closing a closed channel panics. */
    method CloseDone() returns (panics: bool)
      modifies this
      ensures panics == old(closed) && closed
      ensures unchanged(`state) && unchanged(`err) && unchanged(`done)
      ensures trace == if panics then old(trace) else old(trace) + [View()]
    {
      if closed { return true; }
      closed := true;
      trace := trace + [View()];
      panics := false;
    }

    /** `Execute`, with `run` what the delegate does. On a fresh command no panic escapes and the
        cells are those of the step relation; on a command that was executed before, the state
        moves back to Started and the second close always panics past the recovery. */
    method Execute(ctxDone: bool, run: Run<E, R>) returns (escapes: bool)
      modifies this
      ensures escapes <==> old(closed)
      ensures old(View()) == Fresh() ==>
        View() == Outcome(ctxDone, run) && trace == old(trace) + Cells(Begin, Fresh(), ctxDone, run)
      ensures old(View()) == Fresh() ==>
        && closed
        && (ctxDone ==> state == Canceled && err == Some(ErrCtxCancelled) && done == None)
        && (!ctxDone && run.Gave? ==> state == Finished && err == None && done == Some(run.val))
        && (!ctxDone && run.Refused? ==> state == Failed && err == Some(ErrDelegate(run.code)) && done == None)
        && (!ctxDone && run.Blew? ==> state == Panic && err == Some(ErrPanic) && done == None)
      ensures |trace| > |old(trace)| && trace[..|old(trace)|] == old(trace) && trace[|old(trace)|].state == Started
      ensures Order(trace[|old(trace)|].state) < Order(old(state)) <==> Order(old(state)) == 2
      ensures old(closed) ==> Order(state) == 2
    {
      hide Cells;
      HeadOfCells(ctxDone, run);
      FreshRun(ctxDone, run);
      ghost var isNew := View() == Fresh();
      ghost var c1 := Sync(Fresh<R>(), Started, None);
      SyncState(Started, None);
      assert isNew ==> View() == c1;
      trace := trace + [View()]; // the select on ctx
      if ctxDone {
        SyncState(Canceled, Some(ErrCtxCancelled));
        escapes := CloseDone();
        if isNew { TailRecord(Canceled, ErrCtxCancelled, c1, ctxDone, run); }
        return;
      }
      trace := trace + [View()]; // the call of the delegate
      escapes := Guarded(run, ctxDone);
    }

    /** A client that executes its command twice, contrary to the comment that the state never moves
        backwards: after the first time the state is terminal, then it is Started again, and the
        second close panics past the recovery. */
    static method ExecuteTwice(run: Run<E, R>) returns (cmd: GoCommand<E, R>, ghost back: nat, escapes: bool)
      ensures escapes && 0 < back < |cmd.trace|
      ensures Order(cmd.trace[back - 1].state) == 2 && cmd.trace[back].state == Started
    {
      cmd := new GoCommand();
      escapes := cmd.Execute(false, run);
      back := |cmd.trace|;
      ghost var first := cmd.trace;
      FreshRun(false, run);
      assert first == [] + Cells(Begin, Fresh<R>(), false, run);
      escapes := cmd.Execute(false, run);
      assert cmd.trace[back - 1] == first[back - 1];
    }

    /** The inner function of `Execute` after the delegate ended, with its deferred recovery. */
    method Guarded(run: Run<E, R>, ghost ctxDone: bool) returns (escapes: bool)
      modifies this
      ensures escapes <==> old(closed)
      ensures |trace| >= |old(trace)| && trace[..|old(trace)|] == old(trace)
      ensures old(closed) ==> Order(state) == 2
      ensures !old(closed) ==>
        && trace == old(trace) + Cells(AfterCall(run), old(View()), ctxDone, run)
        && View() == trace[|trace| - 1]
    {
      ghost var c := View();
      var panicked := false;
      match run {
        case Blew(_) =>
          panicked := true;
          TailRecord(Panic, ErrPanic, c, ctxDone, run);
        case Refused(_, code) =>
          SyncState(Failed, Some(ErrDelegate(code)));
          panicked := CloseDone();
          TailRecord(Failed, ErrDelegate(code), c, ctxDone, run);
        case Gave(_, v) =>
          if closed {
            panicked := true; // a send on a closed channel panics
          } else {
            done := Some(v);
            trace := trace + [View()];
            SyncState(Finished, None);
            panicked := CloseDone();
          }
          TailSend(v, c, ctxDone, run);
      }
      escapes := false;
      if panicked {
        SyncState(Panic, Some(ErrPanic));
        escapes := CloseDone();
      }
    }
  }
}
