/** What the labels of a bag scheduler say about each single task. */
module BagTheorems {
  import opened Wrappers
  import opened BagScheduler

  /** The labels lead the bag from `b` to `b'`. */
  ghost predicate BagRun(b: Bag, labels: seq<Label>, b': Bag)
    decreases |labels|
  {
    if labels == [] then b == b'
    else Allows(b, labels[0]) && BagRun(After(b, labels[0]), labels[1..], b')
  }

  function Submissions(labels: seq<Label>, t: Task): nat {
    if labels == [] then 0
    else (if labels[0].Submit? && labels[0].t == t then 1 else 0) + Submissions(labels[1..], t)
  }

  function Starts(labels: seq<Label>, t: Task): nat {
    if labels == [] then 0
    else (if labels[0] == Start(t) then 1 else 0) + Starts(labels[1..], t)
  }

  function Finishes(labels: seq<Label>, t: Task): nat {
    if labels == [] then 0
    else (if labels[0] == Finish(t) then 1 else 0) + Finishes(labels[1..], t)
  }

  /** How far a task has come: 0 unseen, 1 queued, 2 running, 3 done. */
  function Progress(b: Bag, t: Task): nat {
    if t in b.done then 3 else if t in b.running then 2 else if t in b.queued then 1 else 0
  }

  ghost predicate Disjoint(b: Bag) {
    b.queued !! b.running && b.queued !! b.done && b.running !! b.done
  }

  /** A task passes each of its three stations at most once, and in order. */
  lemma {:induction false} EachStationOnce(b: Bag, labels: seq<Label>, b': Bag, t: Task)
    requires Disjoint(b) && BagRun(b, labels, b')
    ensures Disjoint(b')
    ensures Progress(b, t) <= Progress(b', t)
    ensures Submissions(labels, t) == if Progress(b, t) < 1 <= Progress(b', t) then 1 else 0
    ensures Starts(labels, t) == if Progress(b, t) < 2 <= Progress(b', t) then 1 else 0
    ensures Finishes(labels, t) == if Progress(b, t) < 3 <= Progress(b', t) then 1 else 0
    decreases |labels|
  {
    if labels != [] {
      EachStationOnce(After(b, labels[0]), labels[1..], b', t);
    }
  }

  /** After `run` has returned, every task ever submitted has been started once and finished once. */
  lemma ReturnedMeansAllRanOnce(labels: seq<Label>, b: Bag, t: Task)
    requires BagRun(EMPTY_BAG, labels, b) && b.queued == {} && b.running == {}
    ensures Submissions(labels, t) <= 1
    ensures Starts(labels, t) == Finishes(labels, t) == Submissions(labels, t)
  {
    EachStationOnce(EMPTY_BAG, labels, b, t);
  }

  /** Every task submitted has been started once and finished once. */
  ghost predicate AllRanOnce(labels: seq<Label>) {
    forall t :: Starts(labels, t) == Finishes(labels, t) == Submissions(labels, t) <= 1
  }

  /** No task is forgotten: what has been submitted stays submitted, what is done stays done. */
  ghost predicate Remembers(b: Bag, b': Bag) {
    b.done <= b'.done && forall x | Unseen(b', x) :: Unseen(b, x)
  }

  lemma AfterRemembers(b: Bag, l: Label)
    ensures Remembers(b, After(b, l))
  {
  }

  lemma {:induction false} ReuseCountsNothing(labels: seq<Label>, t: Task)
    ensures Starts(labels + [Reuse], t) == Starts(labels, t)
    ensures Finishes(labels + [Reuse], t) == Finishes(labels, t)
    ensures Submissions(labels + [Reuse], t) == Submissions(labels, t)
    decreases |labels|
  {
    if labels == [] {
      assert [Reuse][1..] == [];
      assert labels + [Reuse] == [Reuse];
    } else {
      ReuseCountsNothing(labels[1..], t);
      assert (labels + [Reuse])[1..] == labels[1..] + [Reuse];
    }
  }

  /** Getting ready for another use starts and finishes nothing. */
  lemma ReuseChangesNothing(labels: seq<Label>)
    requires AllRanOnce(labels)
    ensures AllRanOnce(labels + [Reuse])
  {
    forall t
      ensures Starts(labels + [Reuse], t) == Finishes(labels + [Reuse], t) == Submissions(labels + [Reuse], t) <= 1
    {
      ReuseCountsNothing(labels, t);
    }
  }
}
