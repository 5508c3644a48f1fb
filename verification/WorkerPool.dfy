/** Running tasks with a bounded number of workers, under any interleaving of claims and completions. */
module WorkerPool {
  import opened Messages
  import opened Sequences

  datatype Worker = Claiming | Running(index: nat) | Returned

  datatype Pool<T> = Pool(nextIndex: nat, workers: seq<Worker>, results: seq<Option<T>>, claimed: seq<nat>)

  function WorkerCount(limit: int, tasks: nat): nat
  {
    var fewer := if limit < tasks then limit else tasks;
    if fewer < 1 then 1 else fewer
  }

  function Start<T>(limit: int, tasks: nat): Pool<T>
  {
    Pool(0, seq(WorkerCount(limit, tasks), _ => Claiming), seq(tasks, _ => None), [])
  }

  predicate CanMove<T>(values: seq<T>, p: Pool<T>, w: nat)
  {
    && w < |p.workers| && !p.workers[w].Returned? && |p.results| == |values|
    && (p.workers[w].Running? ==> p.workers[w].index < |values|)
  }

  /** Worker `w` claims the next index, or stores the value of the task it ran. */
  function Step<T>(values: seq<T>, p: Pool<T>, w: nat): Pool<T>
    requires CanMove(values, p, w)
  {
    match p.workers[w]
    case Claiming =>
      if p.nextIndex >= |values| then p.(nextIndex := p.nextIndex + 1, workers := p.workers[w := Returned])
      else
        p.(nextIndex := p.nextIndex + 1, workers := p.workers[w := Running(p.nextIndex)],
           claimed := p.claimed + [p.nextIndex])
    case Running(i) => p.(workers := p.workers[w := Claiming], results := p.results[i := Some(values[i])])
  }

  predicate InFlight(workers: seq<Worker>, i: nat)
  {
    Running(i) in workers
  }

  ghost predicate Inv<T>(values: seq<T>, p: Pool<T>)
  {
    var n := |values|;
    && |p.results| == n && |p.workers| > 0
    && p.claimed == seq(if p.nextIndex < n then p.nextIndex else n, i => i)
    && (forall w | 0 <= w < |p.workers| && p.workers[w].Running? ::
          p.workers[w].index < n && p.workers[w].index < p.nextIndex && p.results[p.workers[w].index] == None)
    && (forall v, w | 0 <= v < w < |p.workers| && p.workers[v].Running? :: p.workers[v] != p.workers[w])
    && (forall w | 0 <= w < |p.workers| && p.workers[w].Returned? :: p.nextIndex >= n)
    && (forall i | 0 <= i < n ::
          p.results[i] == if i < p.nextIndex && !InFlight(p.workers, i) then Some(values[i]) else None)
  }

  lemma StepKeeps<T>(values: seq<T>, p: Pool<T>, w: nat)
    requires Inv(values, p) && w < |p.workers| && !p.workers[w].Returned?
    ensures Inv(values, Step(values, p, w))
  {
    var q := Step(values, p, w);
    forall i | 0 <= i < |values| && (p.workers[w].Running? ==> i != p.workers[w].index)
      ensures InFlight(q.workers, i) <==>
              InFlight(p.workers, i) || (p.workers[w].Claiming? && i == p.nextIndex)
    {
      if InFlight(p.workers, i) {
        var v :| 0 <= v < |p.workers| && p.workers[v] == Running(i);
        assert q.workers[v] == Running(i);
      }
      if p.workers[w].Claiming? && i == p.nextIndex {
        assert q.workers[w] == Running(i);
      }
    }
    if p.workers[w].Running? {
      assert !InFlight(q.workers, p.workers[w].index);
    }
  }

  /** The pool after its workers have moved in this order, as the promises happen to resolve. */
  function After<T>(values: seq<T>, p: Pool<T>, moves: seq<nat>): Option<Pool<T>>
  {
    if moves == [] then Some(p)
    else
      var before := After(values, p, Front(moves));
      if before.None? || !CanMove(values, before.value, Last(moves)) then None
      else Some(Step(values, before.value, Last(moves)))
  }

  function Weight(workers: seq<Worker>): nat
  {
    if workers == [] then 0
    else Weight(Front(workers)) + match Last(workers) case Claiming => 1 case Running(_) => 2 case Returned => 0
  }

  /** The moves that are left. */
  function Left<T>(values: seq<T>, p: Pool<T>): nat
  {
    Weight(p.workers) + if p.nextIndex < |values| then 2 * (|values| - p.nextIndex) else 0
  }

  lemma {:induction false} WeightUpdate(workers: seq<Worker>, w: nat, to: Worker)
    requires w < |workers|
    ensures Weight(workers[w := to]) == Weight(workers) - Weight([workers[w]]) + Weight([to])
  {
    assert Front([workers[w]]) == [] && Front([to]) == [];
    if w < |workers| - 1 {
      WeightUpdate(Front(workers), w, to);
      assert Front(workers[w := to]) == Front(workers)[w := to];
    } else {
      assert Front(workers[w := to]) == Front(workers);
    }
  }

  /** Every move of any worker leaves one move less. */
  lemma StepProgresses<T>(values: seq<T>, p: Pool<T>, w: nat)
    requires CanMove(values, p, w)
    ensures Left(values, Step(values, p, w)) == Left(values, p) - 1
  {
    WeightUpdate(p.workers, w, Step(values, p, w).workers[w]);
    assert Front([p.workers[w]]) == [] && Front([Step(values, p, w).workers[w]]) == [];
  }

  lemma {:induction false} StartWeight(k: nat)
    ensures Weight(seq(k, _ => Claiming)) == k
  {
    if k > 0 {
      StartWeight(k - 1);
      assert Front(seq(k, _ => Claiming)) == seq(k - 1, _ => Claiming);
    }
  }

  lemma {:induction false} AllReturned(workers: seq<Worker>)
    ensures Weight(workers) == 0 <==> forall w | 0 <= w < |workers| :: workers[w].Returned?
  {
    if workers != [] {
      AllReturned(Front(workers));
      assert forall w | 0 <= w < |workers| - 1 :: workers[w] == Front(workers)[w];
      if forall w | 0 <= w < |workers| :: workers[w].Returned? {
        assert forall w | 0 <= w < |workers| - 1 :: Front(workers)[w].Returned?;
        assert Last(workers).Returned?;
      }
    }
  }

  lemma {:induction false} HistoryKeeps<T>(values: seq<T>, p: Pool<T>, moves: seq<nat>)
    requires Inv(values, p) && After(values, p, moves).Some?
    ensures var q := After(values, p, moves).value;
            Inv(values, q) && |q.workers| == |p.workers| && Left(values, q) + |moves| == Left(values, p)
  {
    if moves != [] {
      HistoryKeeps(values, p, Front(moves));
      var before := After(values, p, Front(moves)).value;
      StepKeeps(values, before, Last(moves));
      StepProgresses(values, before, Last(moves));
    }
  }

  lemma {:induction false} RunningAreWorkers(workers: seq<Worker>)
    ensures |set w | 0 <= w < |workers| && workers[w].Running?| <= |workers|
  {
    var running := set w | 0 <= w < |workers| && workers[w].Running?;
    if workers == [] {
      assert running == {};
    } else {
      var front, n := Front(workers), |workers| - 1;
      RunningAreWorkers(front);
      var before := set w | 0 <= w < |front| && front[w].Running?;
      assert running == before + if workers[n].Running? then {n} else {};
    }
  }

  /**
   For any tasks, limit and interleaving: indices are claimed once each, in order; no more tasks are under way
   than the limit allows, a limit below one counting as one; and the pool is done after exactly two moves a task
   and one a worker, with every result in place.
   */
  lemma EveryTaskRunsOnce<T>(values: seq<T>, limit: int, moves: seq<nat>)
    requires After(values, Start(limit, |values|), moves).Some?
    ensures var q := After(values, Start(limit, |values|), moves).value;
            && q.claimed == seq(if q.nextIndex < |values| then q.nextIndex else |values|, i => i)
            && (forall v, w | 0 <= v < w < |q.workers| && q.workers[v].Running? :: q.workers[v] != q.workers[w])
    ensures var q := After(values, Start(limit, |values|), moves).value;
            var running := |set w | 0 <= w < |q.workers| && q.workers[w].Running?|;
            running <= |values| && (if limit < 1 then running <= 1 else running <= limit)
    ensures var q := After(values, Start(limit, |values|), moves).value;
            && |q.workers| == (if limit < 1 || values == [] then 1 else if limit < |values| then limit else |values|)
            && ((forall w | 0 <= w < |q.workers| :: q.workers[w].Returned?) <==>
                |moves| == 2 * |values| + |q.workers|)
            && ((forall w | 0 <= w < |q.workers| :: q.workers[w].Returned?) ==>
                q.results == seq(|values|, i requires 0 <= i < |values| => Some(values[i])))
  {
    var p := Start<T>(limit, |values|);
    HistoryKeeps(values, p, moves);
    StartWeight(WorkerCount(limit, |values|));
    var q := After(values, p, moves).value;
    AllReturned(q.workers);
    RunningAreWorkers(q.workers);
    if values == [] {
      assert (set w | 0 <= w < |q.workers| && q.workers[w].Running?) == {};
    }
    if forall w | 0 <= w < |q.workers| :: q.workers[w].Returned? {
      assert q.workers[0].Returned?;
      assert forall i | 0 <= i < |values| :: !InFlight(q.workers, i);
    }
  }

  // ---------------------------------------------------------------------------------------------
  // The pool's shared variables
  // ---------------------------------------------------------------------------------------------

  /** One call with its tasks: task `i` will come out as `values[i]`. */
  class Workers<T> {
    const values: seq<T>
    const results: array<Option<T>>
    var nextIndex: nat
    var workers: seq<Worker>
    ghost var claimed: seq<nat>

    ghost function Now(): Pool<T>
      reads this, results
    {
      Pool(nextIndex, workers, results[..], claimed)
    }

    constructor (values: seq<T>, limit: int)
      ensures this.values == values && fresh(results) && Now() == Start(limit, |values|)
      ensures |workers| <= (if limit < 1 then 1 else limit) && (values != [] ==> |workers| <= |values|)
    {
      this.values := values;
      results := new Option<T>[|values|](_ => None);
      nextIndex, claimed := 0, [];
      workers := seq(WorkerCount(limit, |values|), _ => Claiming);
    }

    method Move(w: nat)
      requires CanMove(values, Now(), w)
      modifies this, results
      ensures Now() == Step(values, old(Now()), w)
    {
      match workers[w] {
        case Claiming =>
          var index := nextIndex;
          nextIndex := nextIndex + 1;
          if index >= |values| {
            workers := workers[w := Returned];
          } else {
            workers := workers[w := Running(index)];
            claimed := claimed + [index];
          }
        case Running(i) =>
          results[i] := Some(values[i]);
          workers := workers[w := Claiming];
      }
    }
  }

  /** Runs the tasks until all workers have returned, with any order of moves that gets there. */
  method RunWithConcurrency<T>(values: seq<T>, limit: int, moves: seq<nat>) returns (results: seq<Option<T>>)
    requires After(values, Start(limit, |values|), moves).Some?
    requires |moves| == 2 * |values|
                        + if limit < 1 || values == [] then 1 else if limit < |values| then limit else |values|
    ensures results == seq(|values|, i requires 0 <= i < |values| => Some(values[i]))
  {
    if |values| == 0 {
      return [];
    }
    var pool := new Workers<T>(values, limit);
    for i := 0 to |moves|
      invariant fresh(pool) && fresh(pool.results) && pool.values == values
      invariant After(values, Start(limit, |values|), moves[..i]) == Some(pool.Now())
    {
      FrontOfPrefix(moves, i);
      MovesOn(values, Start(limit, |values|), moves, i + 1);
      pool.Move(moves[i]);
    }
    assert moves[..|moves|] == moves;
    EveryTaskRunsOnce(values, limit, moves);
    return pool.results[..];
  }

  lemma {:induction false} MovesOn<T>(values: seq<T>, p: Pool<T>, moves: seq<nat>, k: nat)
    requires k <= |moves| && After(values, p, moves).Some?
    ensures After(values, p, moves[..k]).Some?
  {
    if k < |moves| {
      MovesOn(values, p, Front(moves), k);
      assert Front(moves)[..k] == moves[..k];
    } else {
      assert moves[..k] == moves;
    }
  }
}
