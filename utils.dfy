/** The signal guard of `ecsctl/utils.py`: while an interactive session runs, the
    terminal's interrupt, quit and stop signals are ignored by ecsctl itself. */
module Utils {

  /** A POSIX signal number. */
  type Signal = int

  const SIGINT: Signal := 2
  const SIGQUIT: Signal := 3
  const SIGTSTP: Signal := 20

  /** The signals a user can send from the terminal, in the order they are handled. */
  const UserSignals: seq<Signal> := [SIGINT, SIGQUIT, SIGTSTP]

  /** What the process does on a signal: `SIG_DFL`, `SIG_IGN` or a Python handler. */
  datatype Disposition = Default | Ignore | Handler(id: nat)

  /** How the guarded block ended: normally, or by raising `exception`. */
  datatype Outcome = Completed | Raised(exception: string)

  /** The disposition of `sig` in `dispositions`; a signal never set has its default. */
  function DispositionOf(dispositions: map<Signal, Disposition>, sig: Signal): (d: Disposition)
    ensures sig !in dispositions ==> d == Default
    ensures sig in dispositions ==> d == dispositions[sig]
  {
    if sig in dispositions then dispositions[sig] else Default
  }

  /** The process's signal dispositions, as `signal.signal` reads and changes them. */
  class SignalTable {
    var dispositions: map<Signal, Disposition>

    constructor (initial: map<Signal, Disposition>)
      ensures dispositions == initial
    {
      dispositions := initial;
    }

    function Current(sig: Signal): Disposition
      reads this
    {
      DispositionOf(dispositions, sig)
    }

    /** `signal.signal(sig, handler)`: installs `handler` and returns what it replaces. */
    method Install(sig: Signal, handler: Disposition) returns (previous: Disposition)
      modifies this
      ensures previous == old(Current(sig))
      ensures dispositions == old(dispositions)[sig := handler]
    {
      previous := DispositionOf(dispositions, sig);
      dispositions := dispositions[sig := handler];
    }
  }

  /** The user signals are all ignored in `table`. */
  predicate UserSignalsIgnored(table: SignalTable)
    reads table
  {
    forall sig :: sig in UserSignals ==> table.Current(sig) == Ignore
  }

  /** The set-up of `ignore_user_entered_signals`: each user signal in turn is set to
      `SIG_IGN`, and what it replaces is saved in the order of the signal list. */
  method IgnoreSignals(table: SignalTable) returns (saved: seq<Disposition>)
    modifies table
    ensures |saved| == |UserSignals|
    ensures forall k :: 0 <= k < |UserSignals| ==> saved[k] == old(table.Current(UserSignals[k]))
    ensures UserSignalsIgnored(table)
    ensures forall sig :: sig !in UserSignals ==> table.Current(sig) == old(table.Current(sig))
  {
    var signalList := UserSignals;
    saved := [];
    for k := 0 to |signalList|
      invariant |saved| == k
      invariant forall j :: 0 <= j < k ==> saved[j] == old(table.Current(UserSignals[j]))
      invariant forall j :: 0 <= j < k ==> table.Current(UserSignals[j]) == Ignore
      invariant forall sig :: sig !in UserSignals[..k] ==> table.Current(sig) == old(table.Current(sig))
    {
      var previous := table.Install(signalList[k], Ignore);
      saved := saved + [previous];
    }
  }

  /** The `yield` of the guard: the guarded block, which ends with `body`, runs only
      while every user signal is ignored. */
  method RunIgnoringUserSignals(table: SignalTable, body: Outcome) returns (outcome: Outcome)
    requires UserSignalsIgnored(table)
    ensures outcome == body
  {
    outcome := body;
  }

  /** The `finally` of the guard: each user signal gets back its saved disposition, and
      no other signal is touched. */
  method RestoreSignals(table: SignalTable, saved: seq<Disposition>)
    requires |saved| == |UserSignals|
    modifies table
    ensures forall k :: 0 <= k < |UserSignals| ==> table.Current(UserSignals[k]) == saved[k]
    ensures forall sig :: sig !in UserSignals ==> table.Current(sig) == old(table.Current(sig))
  {
    var signalList := UserSignals;
    for k := 0 to |signalList|
      invariant forall j :: 0 <= j < k ==> table.Current(UserSignals[j]) == saved[j]
      invariant forall sig :: sig !in UserSignals[..k] ==> table.Current(sig) == old(table.Current(sig))
    {
      var _ := table.Install(signalList[k], saved[k]);
    }
  }

  /** `with ignore_user_entered_signals():` around a block that ends with `body`: the
      block runs with the user signals ignored, their previous dispositions are saved in
      order and put back afterwards whether or not the block raised, and its outcome
      passes through unchanged. */
  method IgnoreUserEnteredSignals(table: SignalTable, body: Outcome) returns (outcome: Outcome, saved: seq<Disposition>)
    modifies table
    ensures outcome == body
    ensures |saved| == |UserSignals|
    ensures forall k :: 0 <= k < |UserSignals| ==> saved[k] == old(table.Current(UserSignals[k]))
    ensures forall sig :: table.Current(sig) == old(table.Current(sig))
  {
    saved := IgnoreSignals(table);
    outcome := RunIgnoringUserSignals(table, body);
    RestoreSignals(table, saved);
    forall sig | sig in UserSignals
      ensures table.Current(sig) == old(table.Current(sig))
    {
      var k :| 0 <= k < |UserSignals| && UserSignals[k] == sig;
    }
  }
}
