/**
 * Creating the credential file: any number of processes may find it missing,
 * write a pair of their own aside and publish it by hard link, and die anywhere.
 */
module CredentialCreation {
  import opened ControlEvents

  /** An operator and an agent token. */
  datatype Pair = Pair(operator: string, agent: string)

  datatype Local =
    | Reading
    | Writing(own: Pair)
    | Publishing(own: Pair)
    | Rereading
    | Returned(pair: Pair)
    | GaveUp

  /** The published file and where each caller stands; the list only grows. */
  datatype State = State(file: Option<Pair>, callers: seq<Local>)

  datatype Step =
    | Call
    | Read(i: nat, pair: Pair)
    | Write(i: nat, ok: bool)
    | Link(i: nat, ok: bool)
    | Reread(i: nat)
    | RemoveFails(i: nat)
    | Die(i: nat)

  predicate Enabled(s: State, step: Step) {
    match step
    case Call => true
    case Read(i, _) => i < |s.callers| && s.callers[i].Reading?
    case Write(i, _) => i < |s.callers| && s.callers[i].Writing?
    case Link(i, _) => i < |s.callers| && s.callers[i].Publishing?
    case Reread(i) => i < |s.callers| && s.callers[i].Rereading?
    case RemoveFails(i) => i < |s.callers| && s.callers[i].Returned?
    case Die(i) => i < |s.callers|
  }

  function Go(s: State, i: nat, l: Local): State
    requires i < |s.callers|
  {
    s.(callers := s.callers[i := l])
  }

  /** `Read` carries the pair the caller would generate; linking never replaces a file. */
  function Apply(s: State, step: Step): State
    requires Enabled(s, step)
  {
    match step
    case Call => s.(callers := s.callers + [Reading])
    case Read(i, pair) => Go(s, i, if s.file.Some? then Returned(s.file.value) else Writing(pair))
    case Write(i, ok) => Go(s, i, if ok then Publishing(s.callers[i].own) else GaveUp)
    case Link(i, ok) =>
      if s.file.Some? then Go(s, i, Rereading)
      else if !ok then Go(s, i, GaveUp)
      else Go(s.(file := Some(s.callers[i].own)), i, Returned(s.callers[i].own))
    case Reread(i) => Go(s, i, if s.file.Some? then Returned(s.file.value) else GaveUp)
    case RemoveFails(i) => Go(s, i, GaveUp)
    case Die(i) => Go(s, i, if s.callers[i].Returned? then s.callers[i] else GaveUp)
  }

  function Run(steps: seq<Step>): State {
    if steps == [] then State(None, [])
    else
      var s := Run(steps[..|steps| - 1]);
      if Enabled(s, steps[|steps| - 1]) then Apply(s, steps[|steps| - 1]) else s
  }

  predicate Inv(s: State) {
    forall i :: 0 <= i < |s.callers| ==>
      && (s.callers[i].Returned? ==> s.file == Some(s.callers[i].pair))
      && (s.callers[i].Rereading? ==> s.file.Some?)
  }

  lemma {:induction false} RunKeeps(steps: seq<Step>)
    ensures Inv(Run(steps))
  {
    if steps != [] {
      RunKeeps(steps[..|steps| - 1]);
    }
  }

  /** Nothing ever changes or removes a published file. */
  lemma {:induction false} PublishedForGood(steps: seq<Step>, more: seq<Step>)
    requires Run(steps).file.Some?
    ensures Run(steps + more).file == Run(steps).file
  {
    if more == [] {
      assert steps + more == steps;
    } else {
      assert (steps + more)[..|steps + more| - 1] == steps + more[..|more| - 1];
      PublishedForGood(steps, more[..|more| - 1]);
    }
  }

  /**
   * All callers that return, early or late, racing or not, got the same pair,
   * and it is what the file says from then on.
   */
  lemma AllAgree(steps: seq<Step>, more: seq<Step>, i: nat, j: nat)
    requires i < |Run(steps).callers| && Run(steps).callers[i].Returned?
    requires j < |Run(steps + more).callers| && Run(steps + more).callers[j].Returned?
    ensures Run(steps).callers[i].pair == Run(steps + more).callers[j].pair
    ensures Run(steps + more).file == Some(Run(steps).callers[i].pair)
  {
    hide Run;
    RunKeeps(steps);
    RunKeeps(steps + more);
    PublishedForGood(steps, more);
  }

  /** A caller that lost the race to publish always finds the winner's file. */
  lemma LoserFindsWinner(steps: seq<Step>, i: nat)
    requires Enabled(Run(steps), Reread(i))
    ensures Apply(Run(steps), Reread(i)).callers[i].Returned?
  {
    hide Run;
    RunKeeps(steps);
  }

  /** A caller that finds the file returns what it says at once; one that does not writes a pair of its own. */
  lemma FindsFile(steps: seq<Step>, i: nat, pair: Pair)
    requires Enabled(Run(steps), Read(i, pair))
    ensures var s, s' := Run(steps), Apply(Run(steps), Read(i, pair));
            && s'.file == s.file
            && (s.file.Some? <==> s'.callers[i].Returned?) && (s.file.None? <==> s'.callers[i] == Writing(pair))
            && (s.file.Some? ==> s'.callers[i].pair == s.file.value)
  {
    hide Run;
  }

  /** The first caller to link publishes its own pair and returns it; every later one leaves the file as it is. */
  lemma FirstLinkWins(steps: seq<Step>, i: nat)
    requires Enabled(Run(steps), Link(i, true))
    ensures var s, s' := Run(steps), Apply(Run(steps), Link(i, true));
            && s'.file == Some(if s.file.Some? then s.file.value else s.callers[i].own)
            && (s'.callers[i] == Returned(s.callers[i].own) <==> s.file.None?)
            && (s.file.Some? ==> s'.callers[i].Rereading?)
  {
    hide Run;
  }

  function StepsLeft(l: Local): nat {
    match l
    case Reading => 5
    case Writing(_) => 4
    case Publishing(_) => 3
    case Rereading => 2
    case _ => 0
  }

  /** In every run a caller that has not given up can still return the pair the file then has, without the others. */
  lemma {:induction false} CallerCanReturn(steps: seq<Step>, i: nat, pair: Pair) returns (longer: seq<Step>)
    requires i < |Run(steps).callers| && !Run(steps).callers[i].GaveUp?
    ensures steps <= longer
    ensures var s, s' := Run(steps), Run(longer);
            && |s'.callers| == |s.callers| && s'.callers[i].Returned? && s'.file == Some(s'.callers[i].pair)
            && (s.file.Some? ==> s'.file == s.file)
            && forall j :: 0 <= j < |s.callers| && j != i ==> s'.callers[j] == s.callers[j]
    decreases StepsLeft(Run(steps).callers[i])
  {
    hide Run;
    RunKeeps(steps);
    var l := Run(steps).callers[i];
    if l.Returned? {
      longer := steps;
    } else {
      var step := match l
                  case Reading => Read(i, pair)
                  case Writing(_) => Write(i, true)
                  case Publishing(_) => Link(i, true)
                  case _ => Reread(i);
      LastStep(steps, step);
      longer := CallerCanReturn(steps + [step], i, pair);
    }
  }

  lemma LastStep(steps: seq<Step>, step: Step)
    requires Enabled(Run(steps), step)
    ensures Run(steps + [step]) == Apply(Run(steps), step)
  {
    assert (steps + [step])[..|steps|] == steps;
  }
}
