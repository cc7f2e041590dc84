/**
 Admission control as a step system.  Between two suspension points a slot runs
 atomically, so every interleaving of tasks is a sequence of these steps.
 */
module Admission {

  // Entering looks at the clock twice: before admission, and again once a permit is
  // held.  Whether an entering task queues is the semaphore's choice; it must when no
  // permit is free.
  datatype Event<T> =
    | Enter(task: T, late: bool, queued: bool, lateAgain: bool)
    | Grant(task: T)                    // a released permit is handed to a waiter
    | Resume(task: T, late: bool)       // the waiter runs and rechecks its deadline
    | Abandon(task: T)                  // time-out or cancellation before it runs
    | Exit(task: T)                     // the body ends, by any means

  // The limiter's counters, its semaphore's free permits, and where each task is.
  datatype State<T(==)> = State(
    concurrency: nat, queueLimit: nat,
    permits: int, admitted: int, active: int,
    waiting: set<T>, granted: set<T>, working: set<T>)
  {
    function Inside(): set<T> {
      waiting + granted + working
    }

    predicate Full() {
      admitted >= concurrency + queueLimit
    }
  }

  predicate Enabled<T(==)>(s: State<T>, event: Event<T>) {
    match event
    case Enter(task, _, queued, _) => task !in s.Inside() && (queued || s.permits > 0)
    case Grant(task) => task in s.waiting && s.permits > 0
    case Resume(task, _) => task in s.granted
    case Abandon(task) => task in s.waiting || task in s.granted
    case Exit(task) => task in s.working
  }

  // What the task sees.
  datatype Outcome = Admitted | Queued | Left | Late | Saturated

  function Verdict<T(==)>(s: State<T>, event: Event<T>): Outcome {
    match event
    case Enter(_, late, queued, lateAgain) =>
      if late then Late
      else if s.Full() then Saturated
      else if queued then Queued
      else if lateAgain then Late else Admitted
    case Grant(_) => Queued
    case Resume(_, late) => if late then Late else Admitted
    case Abandon(_) => Left
    case Exit(_) => Left
  }

  function Next<T(==)>(s: State<T>, event: Event<T>): State<T>
    requires Enabled(s, event)
  {
    match event
    case Enter(task, late, queued, lateAgain) =>
      if late || s.Full() then s
      else if queued then s.(admitted := s.admitted + 1, waiting := s.waiting + {task})
      else if lateAgain then s
      else s.(admitted := s.admitted + 1, permits := s.permits - 1, active := s.active + 1,
              working := s.working + {task})
    case Grant(task) => s.(permits := s.permits - 1, waiting := s.waiting - {task}, granted := s.granted + {task})
    case Resume(task, late) =>
      if late then s.(permits := s.permits + 1, admitted := s.admitted - 1, granted := s.granted - {task})
      else s.(active := s.active + 1, granted := s.granted - {task}, working := s.working + {task})
    case Abandon(task) =>
      if task in s.waiting then s.(admitted := s.admitted - 1, waiting := s.waiting - {task})
      else s.(permits := s.permits + 1, admitted := s.admitted - 1, granted := s.granted - {task})
    case Exit(task) =>
      s.(permits := s.permits + 1, admitted := s.admitted - 1, active := s.active - 1, working := s.working - {task})
  }

  function Initial<T(==)>(concurrency: nat, queueLimit: nat): State<T> {
    State(concurrency, queueLimit, concurrency, 0, 0, {}, {}, {})
  }

  // Free permits plus permits held is the concurrency; the counters count the tasks.
  predicate Balanced<T(==)>(s: State<T>) {
    && s.concurrency >= 1 && s.permits >= 0
    && s.waiting !! s.granted !! s.working
    && s.permits + |s.granted| + |s.working| == s.concurrency
    && s.active == |s.working|
    && s.admitted == |s.waiting| + |s.granted| + |s.working|
    && s.admitted <= s.concurrency + s.queueLimit
  }

  lemma EnterKeeps<T>(s: State<T>, task: T, late: bool, queued: bool, lateAgain: bool)
    requires Balanced(s) && Enabled(s, Enter(task, late, queued, lateAgain))
    ensures Balanced(Next(s, Enter(task, late, queued, lateAgain)))
  {
  }

  lemma AbandonKeeps<T>(s: State<T>, task: T)
    requires Balanced(s) && Enabled(s, Abandon(task))
    ensures Balanced(Next(s, Abandon(task)))
  {
  }

  lemma ResumeKeeps<T>(s: State<T>, task: T, late: bool)
    requires Balanced(s) && Enabled(s, Resume(task, late))
    ensures Balanced(Next(s, Resume(task, late)))
  {
  }

  lemma BalanceKept<T>(s: State<T>, event: Event<T>)
    requires Balanced(s) && Enabled(s, event)
    ensures Balanced(Next(s, event))
  {
    match event
    case Enter(task, late, queued, lateAgain) => EnterKeeps(s, task, late, queued, lateAgain);
    case Grant(task) =>
    case Resume(task, late) => ResumeKeeps(s, task, late);
    case Abandon(task) => AbandonKeeps(s, task);
    case Exit(task) =>
  }

  // ---- Every interleaving -----------------------------------------------------------------

  predicate Possible<T(==)>(s: State<T>, events: seq<Event<T>>)
    decreases |events|
  {
    events == [] || (Enabled(s, events[0]) && Possible(Next(s, events[0]), events[1..]))
  }

  function After<T(==)>(s: State<T>, events: seq<Event<T>>): State<T>
    requires Possible(s, events)
    decreases |events|
  {
    if events == [] then s else After(Next(s, events[0]), events[1..])
  }

  lemma {:induction false} AlwaysBalanced<T>(s: State<T>, events: seq<Event<T>>)
    requires Balanced(s) && Possible(s, events)
    ensures Balanced(After(s, events))
    ensures After(s, events).concurrency == s.concurrency && After(s, events).queueLimit == s.queueLimit
    decreases |events|
  {
    if events != [] {
      BalanceKept(s, events[0]);
      AlwaysBalanced(Next(s, events[0]), events[1..]);
    }
  }

  // In every interleaving active work stays within the concurrency and admitted work
  // within concurrency plus queue; once every task has left, all counters are back.
  lemma AdmissionHolds<T>(concurrency: nat, queueLimit: nat, events: seq<Event<T>>)
    requires concurrency >= 1 && Possible(Initial(concurrency, queueLimit), events)
    ensures var s := After(Initial(concurrency, queueLimit), events);
            && 0 <= s.active <= concurrency
            && s.active <= s.admitted <= concurrency + queueLimit
            && s.permits + |s.granted + s.working| == concurrency
            && (s.Inside() == {} ==> s == Initial(concurrency, queueLimit))
  {
    var start := Initial<T>(concurrency, queueLimit);
    assert |start.waiting| == 0 && |start.granted| == 0 && |start.working| == 0;
    AlwaysBalanced(start, events);
    var s := After(start, events);
    assert |s.granted + s.working| == |s.granted| + |s.working|;
    if s.Inside() == {} {
      assert s.waiting == {} && s.granted == {} && s.working == {};
    }
  }

  // ---- The limiter object -----------------------------------------------------------------------

  // The semaphore is its count of free permits; the sets are where the tasks are.
  class CapacityLimiter<T(==)> {
    const concurrency: nat
    const queueLimit: nat
    var permits: int
    var admitted: int
    var active: int
    ghost var waiting: set<T>
    ghost var granted: set<T>
    ghost var working: set<T>

    ghost function Snapshot(): State<T>
      reads this
    {
      State(concurrency, queueLimit, permits, admitted, active, waiting, granted, working)
    }

    constructor (concurrency: nat, queueLimit: nat)
      ensures Snapshot() == Initial(concurrency, queueLimit)
    {
      this.concurrency, this.queueLimit := concurrency, queueLimit;
      permits, admitted, active := concurrency, 0, 0;
      waiting, granted, working := {}, {}, {};
    }

    method Active() returns (count: int)
      ensures count == Snapshot().active
    {
      return active;
    }

    method Waiting() returns (count: int)
      ensures count == Snapshot().admitted - Snapshot().active
      ensures Balanced(Snapshot()) ==> count == |waiting| + |granted|
    {
      return admitted - active;
    }

    // Entry up to the first suspension: the checks, admission and a free permit.
    method Begin(ghost task: T, late: bool, queued: bool, lateAgain: bool) returns (outcome: Outcome)
      requires Balanced(Snapshot()) && Enabled(Snapshot(), Enter(task, late, queued, lateAgain))
      modifies this
      ensures Snapshot() == Next(old(Snapshot()), Enter(task, late, queued, lateAgain)) && Balanced(Snapshot())
      ensures outcome == Verdict(old(Snapshot()), Enter(task, late, queued, lateAgain))
    {
      BalanceKept(Snapshot(), Enter(task, late, queued, lateAgain));
      if late {
        return Late;
      }
      if admitted >= concurrency + queueLimit {
        return Saturated;
      }
      admitted := admitted + 1;
      if queued {
        waiting := waiting + {task};
        return Queued;
      }
      permits := permits - 1;
      active := active + 1;
      if lateAgain {
        active := active - 1;
        permits := permits + 1;
        admitted := admitted - 1;
        return Late;
      }
      working := working + {task};
      return Admitted;
    }

    method HandOver(ghost task: T)
      requires Balanced(Snapshot()) && Enabled(Snapshot(), Grant(task))
      modifies this
      ensures Snapshot() == Next(old(Snapshot()), Grant(task)) && Balanced(Snapshot())
    {
      BalanceKept(Snapshot(), Grant(task));
      permits := permits - 1;
      waiting, granted := waiting - {task}, granted + {task};
    }

    // A granted waiter runs: the deadline may have passed before it was scheduled.
    method Continue(ghost task: T, late: bool) returns (outcome: Outcome)
      requires Balanced(Snapshot()) && Enabled(Snapshot(), Resume(task, late))
      modifies this
      ensures Snapshot() == Next(old(Snapshot()), Resume(task, late)) && Balanced(Snapshot())
      ensures outcome == Verdict(old(Snapshot()), Resume(task, late))
    {
      BalanceKept(Snapshot(), Resume(task, late));
      ghost var next := Next(Snapshot(), Resume(task, late));
      active := active + 1;
      granted := granted - {task};
      if late {
        active := active - 1;
        permits := permits + 1;
        admitted := admitted - 1;
        assert Snapshot() == next;
        return Late;
      }
      working := working + {task};
      assert Snapshot() == next;
      return Admitted;
    }

    // Time-out or cancellation; a permit already handed over goes back.
    method GiveUp(ghost task: T, holds: bool)
      requires Balanced(Snapshot()) && Enabled(Snapshot(), Abandon(task)) && (holds <==> task in granted)
      modifies this
      ensures Snapshot() == Next(old(Snapshot()), Abandon(task)) && Balanced(Snapshot())
    {
      BalanceKept(Snapshot(), Abandon(task));
      if holds {
        permits := permits + 1;
        granted := granted - {task};
      } else {
        waiting := waiting - {task};
      }
      admitted := admitted - 1;
    }

    method Finish(ghost task: T)
      requires Balanced(Snapshot()) && Enabled(Snapshot(), Exit(task))
      modifies this
      ensures Snapshot() == Next(old(Snapshot()), Exit(task)) && Balanced(Snapshot())
    {
      BalanceKept(Snapshot(), Exit(task));
      active := active - 1;
      permits := permits + 1;
      admitted := admitted - 1;
      working := working - {task};
    }
  }
}
