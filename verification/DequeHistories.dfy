/** The recording histories of the deque mean what they say: the peak was reached, and the winners took their index. */
module DequeHistories {
  import opened Wrappers
  import opened DequeModel
  import opened DequeInvariant
  import opened DequeSteps
  import opened DequeTheorems

  function StateAfter(s: State, steps: seq<Step>): State
    decreases |steps|
  {
    if steps == [] || !Enabled(s, steps[0]) then s else StateAfter(Do(s, steps[0]), steps[1..])
  }

  // ---------------------------------------------------------------- the peak

  /** After `k` steps the deque held `peak` tasks. */
  predicate Held(s: State, steps: seq<Step>, k: nat, peak: int) {
    k <= |steps| && |Content(StateAfter(s, steps[..k]))| == peak
  }

  lemma StepPeaks(s: State, step: Step)
    requires ShapeOk(s) && Enabled(s, step)
    ensures Do(s, step).peak == s.peak || |Content(Do(s, step))| == Do(s, step).peak
  {
  }

  lemma {:induction false} PeakFrom(s: State, steps: seq<Step>, s': State) returns (k: nat)
    requires Inv(s) && Reaches(s, steps, s')
    ensures s'.peak == s.peak || Held(s, steps, k, s'.peak)
    decreases |steps|
  {
    k := 0;
    if steps != [] {
      var m := Do(s, steps[0]);
      StepKeepsInv(s, steps[0]);
      StepPeaks(s, steps[0]);
      k := PeakFrom(m, steps[1..], s');
      if s'.peak != m.peak {
        HeldLater(s, steps, k, s'.peak);
        k := k + 1;
      } else if m.peak != s.peak {
        HeldLater(s, steps, 0, m.peak);
        k := 1;
      }
    }
  }

  lemma HeldLater(s: State, steps: seq<Step>, k: nat, peak: int)
    requires steps != [] && Enabled(s, steps[0])
    requires Held(Do(s, steps[0]), steps[1..], k, peak) || (k == 0 && |Content(Do(s, steps[0]))| == peak)
    ensures Held(s, steps, k + 1, peak)
  {
    assert steps[..k + 1][1..] == steps[1..][..k];
  }

  /** The recorded peak is how many tasks the deque held at some moment of the run. */
  lemma PeakIsReached(thieves: nat, steps: seq<Step>, s: State) returns (k: nat)
    requires Reaches(Init(thieves), steps, s)
    ensures Held(Init(thieves), steps, k, s.peak)
  {
    InitHasInv(thieves);
    k := PeakFrom(Init(thieves), steps, s);
    if s.peak == 0 {
      k := 0;
    }
  }

  // ---------------------------------------------------------------- the winners

  /** After `k` steps the next one took index `j` for `agent`, by raising `top_` past it. */
  predicate Took(s: State, steps: seq<Step>, k: nat, j: nat, agent: Agent) {
    k < |steps| && TakesIndex(StateAfter(s, steps[..k]), steps[k], j, agent)
  }

  predicate TakesIndex(s: State, step: Step, j: nat, agent: Agent) {
    && Enabled(s, step) && s.top == j && Do(s, step).top == j + 1
    && match step
       case PopRaceCas => agent == Owner
       case ThiefCas(i) => agent == Thief(i)
       case _ => false
  }

  lemma StepWins(s: State, step: Step)
    requires WinnersOk(s) && Enabled(s, step)
    ensures s.winners <= Do(s, step).winners && |Do(s, step).winners| <= |s.winners| + 1
    ensures |Do(s, step).winners| > |s.winners| ==> TakesIndex(s, step, |s.winners|, Last(Do(s, step).winners))
  {
  }

  lemma {:induction false} WinnersStay(s: State, steps: seq<Step>, s': State)
    requires Reaches(s, steps, s')
    ensures s.winners <= s'.winners
    decreases |steps|
  {
    if steps != [] {
      WinnersStay(Do(s, steps[0]), steps[1..], s');
    }
  }

  lemma {:induction false} WinnerFrom(s: State, steps: seq<Step>, s': State, j: nat) returns (k: nat)
    requires Inv(s) && Reaches(s, steps, s') && |s.winners| <= j < |s'.winners|
    ensures Took(s, steps, k, j, s'.winners[j])
    decreases |steps|
  {
    var m := Do(s, steps[0]);
    StepKeepsInv(s, steps[0]);
    StepWins(s, steps[0]);
    WinnersStay(m, steps[1..], s');
    if j < |m.winners| {
      k := 0;
      assert steps[..0] == [];
    } else {
      k := WinnerFrom(m, steps[1..], s', j);
      TookLater(s, steps, k, j, s'.winners[j]);
      k := k + 1;
    }
  }

  lemma TookLater(s: State, steps: seq<Step>, k: nat, j: nat, agent: Agent)
    requires steps != [] && Enabled(s, steps[0]) && Took(Do(s, steps[0]), steps[1..], k, j, agent)
    ensures Took(s, steps, k + 1, j, agent)
  {
    assert steps[..k + 1][1..] == steps[1..][..k];
  }

  /** The recorded winner of an index is the agent whose CAS took it. */
  lemma WinnerTookIndex(thieves: nat, steps: seq<Step>, s: State, j: nat) returns (k: nat)
    requires Reaches(Init(thieves), steps, s) && j < |s.winners|
    ensures Took(Init(thieves), steps, k, j, s.winners[j])
  {
    InitHasInv(thieves);
    k := WinnerFrom(Init(thieves), steps, s, j);
  }

  /** Every index below `top_` was taken by some CAS of the run. */
  lemma EveryIndexWasTaken(thieves: nat, steps: seq<Step>, s: State, j: nat) returns (k: nat, agent: Agent)
    requires Reaches(Init(thieves), steps, s) && j < s.top
    ensures Took(Init(thieves), steps, k, j, agent)
  {
    InitHasInv(thieves);
    RunKeepsInv(Init(thieves), steps, s);
    k := WinnerTookIndex(thieves, steps, s, j);
    agent := s.winners[j];
  }
}
