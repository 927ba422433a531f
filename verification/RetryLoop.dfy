/** consumerd's Run: submitting a request again until it is answered. */
module RetryLoop {
  import opened Common
  import opened Pools

  /** What Wait returns: a response, another error, or one of the two that ask for another try. */
  datatype Outcome = Answered(code: int) | Failed(error: string) | NoAgentsRetry | NoAgentsRunLocal {
    predicate AsksAgain() { NoAgentsRetry? || NoAgentsRunLocal? }
  }

  /** The exclusivity of attempt i, given how the attempts before it ended. */
  ghost predicate MustBeLocal(canRunRemote: bool, outcomes: seq<Outcome>, i: nat) {
    !canRunRemote || exists j :: 0 <= j < i && j < |outcomes| && outcomes[j].NoAgentsRunLocal?
  }

  /** The loop, fed with the outcomes of its attempts. It ends with the first outcome that does not
      ask again; if there is none, its last attempt is still under way. */
  method RunRequest(canRunRemote: bool, outcomes: seq<Outcome>)
    returns (submitted: seq<Exclusivity>, answer: Option<Outcome>)
    ensures 1 <= |submitted| <= |outcomes| + 1
    ensures forall j | 0 <= j < |submitted| - 1 :: outcomes[j].AsksAgain()
    ensures answer.Some? ==>
              |submitted| <= |outcomes| && answer.value == outcomes[|submitted| - 1] && !answer.value.AsksAgain()
    ensures answer.None? ==> |submitted| == |outcomes| + 1
    ensures forall i | 0 <= i < |submitted| ::
              submitted[i] == if MustBeLocal(canRunRemote, outcomes, i) then OnlyLocal else Unknown
    // Exclusivity never goes back from Local.
    ensures forall i, j | 0 <= i <= j < |submitted| && submitted[i].OnlyLocal? :: submitted[j].OnlyLocal?
  {
    var exclusivity := Unknown;
    if !canRunRemote { exclusivity := OnlyLocal; }
    submitted, answer := [], None;
    var i := 0;
    while true
      invariant i == |submitted| <= |outcomes| && answer.None?
      invariant forall j | 0 <= j < i :: outcomes[j].AsksAgain()
      invariant exclusivity == if MustBeLocal(canRunRemote, outcomes, i) then OnlyLocal else Unknown
      invariant forall j | 0 <= j < i ::
                  submitted[j] == if MustBeLocal(canRunRemote, outcomes, j) then OnlyLocal else Unknown
      decreases |outcomes| - i
    {
      submitted := submitted + [exclusivity];
      if i == |outcomes| { return; }
      var outcome := outcomes[i];
      if !outcome.AsksAgain() { return submitted, Some(outcome); }
      if outcome.NoAgentsRunLocal? { exclusivity := OnlyLocal; }
      i := i + 1;
    }
  }
}
