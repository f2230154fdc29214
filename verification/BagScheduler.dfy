/**
 * What a client of a scheduler may rely on: an unordered bag of tasks.  A task is submitted before the
 * launch or by a running task, is started at most once, and `run` returns only when nothing is left; then
 * the scheduler may be used again.
 */
module BagScheduler {
  import opened Wrappers

  /** What scheduler and client agree on; `Tau` is a step of one of them alone. */
  datatype Label =
    | Tau
    | Submit(parent: Option<Task>, t: Task)
    | Launch
    | Start(t: Task)
    | Finish(t: Task)
    | Return
    | Reuse

  datatype Bag = Bag(queued: set<Task>, running: set<Task>, done: set<Task>, launched: bool, returned: bool)

  const EMPTY_BAG := Bag({}, {}, {}, false, false)

  /** A task object is submitted only once: `submit` takes it by unique pointer. */
  predicate Unseen(b: Bag, t: Task) {
    t !in b.queued && t !in b.running && t !in b.done
  }

  /** The state a label leads to, whether or not the bag allows the label. */
  function After(b: Bag, l: Label): Bag {
    match l
    case Tau => b
    case Submit(_, t) => b.(queued := b.queued + {t})
    case Launch => b.(launched := true)
    case Start(t) => b.(queued := b.queued - {t}, running := b.running + {t})
    case Finish(t) => b.(running := b.running - {t}, done := b.done + {t})
    case Return => b.(returned := true)
    case Reuse => b.(launched := false, returned := false)
  }

  /** Whether the bag allows a label now. */
  predicate Allows(b: Bag, l: Label) {
    match l
    case Tau => true
    case Submit(parent, t) => (if parent.Some? then parent.value in b.running else !b.launched) && Unseen(b, t)
    case Launch => !b.launched
    case Start(t) => b.launched && t in b.queued
    case Finish(t) => t in b.running
    case Return => b.launched && !b.returned && b.queued == {} && b.running == {}
    case Reuse => b.returned
  }

  predicate BagNext(b: Bag, l: Label, b': Bag) {
    Allows(b, l) && b' == After(b, l)
  }
}
