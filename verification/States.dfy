/** The lifecycle states of an attempt and the chain of states a run records. */
module States {
  import Protocol

  datatype State =
    | Received | Preparing | Running | Collecting
    | Completed | Failed | Cancelled | TimedOut
    | Destroying | Destroyed

  function AsStr(s: State): string {
    match s
    case Received => "received"
    case Preparing => "preparing"
    case Running => "running"
    case Collecting => "collecting"
    case Completed => "completed"
    case Failed => "failed"
    case Cancelled => "cancelled"
    case TimedOut => "timed_out"
    case Destroying => "destroying"
    case Destroyed => "destroyed"
  }

  function FromStr(s: string): State {
    match s
    case "completed" => Completed
    case "cancelled" => Cancelled
    case "timed_out" => TimedOut
    case _ => Failed
  }

  predicate Terminal(s: State) {
    s.Completed? || s.Failed? || s.Cancelled? || s.TimedOut?
  }

  /** Reading back a state's name gives the state again for the terminal states only. */
  lemma NamesReadBack(s: State)
    ensures FromStr(AsStr(s)) == s <==> Terminal(s)
  {}

  function StatusText(status: Protocol.Status): string {
    match status
    case Completed => "completed"
    case Failed => "failed"
    case Cancelled => "cancelled"
    case TimedOut => "timed_out"
  }

  /** Every status a run reports becomes the terminal state of the same name. */
  lemma StatusIsTerminal(status: Protocol.Status)
    ensures Terminal(FromStr(StatusText(status)))
    ensures AsStr(FromStr(StatusText(status))) == StatusText(status)
  {}

  /** The states a complete run records, with `terminal` where it reports its status. */
  function Chain(terminal: State): seq<State> {
    [Received, Preparing, Running, Collecting, terminal, Destroying, Destroyed]
  }

  /** The names a complete run leaves in the journal, in order. */
  lemma ChainReads(terminal: State)
    requires Terminal(terminal)
    ensures var c := Chain(terminal);
      && [AsStr(c[0]), AsStr(c[1]), AsStr(c[2]), AsStr(c[3])] == ["received", "preparing", "running", "collecting"]
      && AsStr(c[4]) in {"completed", "failed", "cancelled", "timed_out"} && FromStr(AsStr(c[4])) == terminal
      && [AsStr(c[5]), AsStr(c[6])] == ["destroying", "destroyed"]
  {}

  /** The transition table that ships beside the states; no code consults it. */
  predicate ValidTransition(from: State, to: State) {
    match (from, to)
    case (Received, Preparing) => true
    case (Preparing, Running) => true
    case (Preparing, Failed) => true
    case (Running, Collecting) => true
    case (Running, Cancelled) => true
    case (Running, TimedOut) => true
    case (Running, Failed) => true
    case (Collecting, Completed) => true
    case (Collecting, Failed) => true
    case (Completed, Destroying) => true
    case (Failed, Destroying) => true
    case (Cancelled, Destroying) => true
    case (TimedOut, Destroying) => true
    case (Destroying, Destroyed) => true
    case _ => false
  }

  /** The chain a run really records is legal by that table only for completed and failed runs. */
  lemma ChainIsLegalExactly(terminal: State)
    requires Terminal(terminal)
    ensures (forall i | 0 <= i < 6 :: ValidTransition(Chain(terminal)[i], Chain(terminal)[i + 1]))
       <==> terminal.Completed? || terminal.Failed?
  {
    if terminal.Cancelled? || terminal.TimedOut? {
      assert !ValidTransition(Chain(terminal)[3], Chain(terminal)[4]);
    }
  }
}
