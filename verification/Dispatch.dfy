/**
 * How a command is executed once its request is journaled, and which commands
 * can fail where nothing catches, so that they never come to a terminal event.
 */
module Dispatch {
  import opened ControlEvents
  import opened RuntimeLog
  import opened RuntimeModel
  import opened Runtime
  import opened RuntimeRuns
  import opened RuntimeRetries

  datatype PaneKind = Prompt | Input | OtherKind

  /** A command, as far as its kind, actor and payload decide how it is executed. */
  datatype Command =
    | Delegate(human: bool)
    | Takeover
    | PaneAction(hasAction: bool)
    | OnOtherSurface(isAction: bool)
    | OnPane(kind: PaneKind, named: bool)
    | Other

  /** What may go wrong while it is executed. */
  datatype Faults = Faults(stale: bool, subject: bool, preemption: bool, lease: bool, revocation: bool, event: bool,
                           body: bool)

  datatype Flow = Returns | Throws

  /** The terminal event is decided and handed to the journal, or the execution ends without. */
  datatype Ending = Ends | Escapes

  function Then(flow: Flow): Ending {
    if flow.Returns? then Ends else Escapes
  }

  function Caught(flow: Flow): Ending {
    Ends
  }

  /**
   * The body of a command: a handler that is awaited inside the `try` is caught
   * there, but the promise of a prompt or an input is handed on and fails outside.
   */
  function ExecuteStarted(c: Command, f: Faults): Flow {
    var body := if f.body then Throws else Returns;
    var awaited := !(c.OnPane? && (c.kind.Prompt? || c.kind.Input?));
    if awaited then Returns else body
  }

  /** Without a queue nothing is left to catch that. */
  function ExecuteImmediate(c: Command, f: Faults): Ending {
    Then(ExecuteStarted(c, f))
  }

  /** In a pane's queue a catch branch ends the command as failed, whatever was thrown. */
  function RunQueued(c: Command, f: Faults): Ending {
    Caught(ExecuteStarted(c, f))
  }

  function ExecuteDelegate(human: bool, f: Faults): Ending {
    if !human then Ends else if f.lease then Escapes else if f.event then Escapes else Ends
  }

  function ExecuteTakeover(f: Faults): Ending {
    if f.preemption then Escapes
    else if f.lease then Escapes
    else if f.revocation then Escapes
    else if f.event then Escapes
    else Ends
  }

  /** Where a surface action points to; looking at an action that is not there throws. */
  function TargetOf(c: Command): Flow {
    if c.PaneAction? && !c.hasAction then Throws else Returns
  }

  /** The owner of a failed action is looked up before the `try`, and its target again in the catch branch. */
  function ExecuteSurface(c: Command, f: Faults): Ending {
    var isAction := c.PaneAction? || (c.OnOtherSurface? && c.isAction);
    if isAction && f.subject && TargetOf(c).Throws? then Escapes
    else
      var tried := if f.body || TargetOf(c).Throws? then Throws else Returns;
      if tried.Returns? then Ends else if isAction then Then(TargetOf(c)) else Ends
  }

  function Execute(c: Command, f: Faults): Ending {
    if f.stale then Ends
    else
      match c
      case PaneAction(_) => ExecuteSurface(c, f)
      case OnOtherSurface(_) => ExecuteSurface(c, f)
      case Delegate(human) => ExecuteDelegate(human, f)
      case Takeover => ExecuteTakeover(f)
      case OnPane(_, named) => if named then RunQueued(c, f) else ExecuteImmediate(c, f)
      case Other => ExecuteImmediate(c, f)
  }

  /**
   * Takeovers; delegations by a human; prompts and inputs that name no pane; and
   * pane actions without an action.
   */
  predicate Unguarded(c: Command) {
    match c
    case Delegate(human) => human
    case Takeover => true
    case PaneAction(hasAction) => !hasAction
    case OnOtherSurface(_) => false
    case OnPane(kind, named) => !named && !kind.OtherKind?
    case Other => false
  }

  /** These are exactly the commands that can end without a terminal event being decided. */
  lemma EscapesIff(c: Command)
    ensures (exists f :: Execute(c, f).Escapes?) <==> Unguarded(c)
  {
    if Unguarded(c) {
      assert Execute(c, Faults(false, true, true, true, true, true, true)).Escapes?;
    }
  }

  // ---- What that means for the promises of the runtime ----

  predicate OnSurface(c: Command) {
    c.PaneAction? || c.OnOtherSurface?
  }

  function KindsOf(commands: map<Key, Command>): Kinds {
    Kinds(set k | k in commands && OnSurface(commands[k]), set k | k in commands && Unguarded(commands[k]))
  }

  /**
   * While no terminal event that was decided is left uncommitted, a plain command
   * runs at most once and keeps its outcome exactly if no failure after its
   * request can escape: a matter of the command alone.
   */
  lemma PromisesKeptIff(commands: map<Key, Command>, k: Key)
    requires k in commands && !OnSurface(commands[k])
    ensures RunsOnce(KindsOf(commands), k, 0) <==> !exists f :: Execute(commands[k], f).Escapes?
    ensures KeepsOutcome(KindsOf(commands), k, 0) <==> !exists f :: Execute(commands[k], f).Escapes?
  {
    var kinds := KindsOf(commands);
    EscapesIff(commands[k]);
    assert k in kinds.unguarded <==> Unguarded(commands[k]);
    hide RunsOnce, KeepsOutcome, Execute, KindsOf, Unguarded;
    AtMostOnceIff(kinds, k, 0);
    OutcomeKeptIff(kinds, k, 0);
  }
}
