/** The command object bound to menu items and buttons. */
module RelayCommand {
  import opened Wrappers

  /** An action the command runs, named by an identifier. */
  datatype Action = Action(id: nat)

  /** `RelayCommand(execute, canExecute)`: the action and the optional predicate. */
  datatype Command = Command(execute: Action, canExecute: Option<() -> bool>)

  /** What constructing a command yields: the command, or the `ArgumentNullException` for a null action. */
  datatype Construction = Constructed(command: Command) | ArgumentNull(paramName: string)

  /** The primary constructor: a null `execute` throws; the predicate may be null. */
  function Create(execute: Option<Action>, canExecute: Option<() -> bool>): (r: Construction)
    ensures execute.None? <==> r.ArgumentNull?
    ensures r.ArgumentNull? ==> r.paramName == "execute"
    ensures r.Constructed? ==> r.command.execute == execute.value && r.command.canExecute == canExecute
  {
    match execute
    case None => ArgumentNull("execute")
    case Some(action) => Constructed(Command(action, canExecute))
  }

  /** `CanExecute`: the predicate's answer, or true without a predicate; the parameter is never looked at. */
  function CanExecute<P>(command: Command, parameter: P): (r: bool)
    ensures command.canExecute.None? ==> r
    ensures command.canExecute.Some? ==> r == command.canExecute.value()
  {
    match command.canExecute
    case None => true
    case Some(test) => test()
  }

  /** The parameter never changes the answer. */
  lemma CanExecuteIgnoresParameter<P>(command: Command, p1: P, p2: P)
    ensures CanExecute(command, p1) == CanExecute(command, p2)
  {
  }

  /** `Execute`: runs the action once; `ran` is every action run so far. */
  function Execute<P>(command: Command, parameter: P, ran: seq<Action>): (r: seq<Action>)
    ensures |r| == |ran| + 1 && r[..|ran|] == ran && r[|ran|] == command.execute
    ensures multiset(r)[command.execute] == multiset(ran)[command.execute] + 1
  {
    ran + [command.execute]
  }

  /** A command built from an action runs exactly that action, whatever the parameter. */
  lemma ExecuteRunsConstructedAction<P>(action: Action, canExecute: Option<() -> bool>, parameter: P, ran: seq<Action>)
    ensures Create(Some(action), canExecute).Constructed?
    ensures Execute(Create(Some(action), canExecute).command, parameter, ran) == ran + [action]
  {
  }
}
