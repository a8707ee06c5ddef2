/** `WorkerPool`: a FIFO queue of jobs and the executors that process them.
    The executors' concurrency is left out; `Step` is one iteration of an
    executor's loop, run to completion before the next one starts. */
module Worker {
  import opened Wrappers
  import opened Models
  import opened Store
  import opened Pipeline

  /** `Job`: a request to process one stored turn. */
  datatype Job = Job(turnId: string)

  /** An executor task created by `start`: one `_worker_loop` coroutine. */
  datatype Task = WorkerLoop

  /** What one iteration of the loop did: found the queue empty (the real
      loop would wait), dropped a job whose turn is not stored, or ran the
      pipeline and wrote the turn back. */
  datatype StepResult = Waiting | Skipped(turnId: string) | Processed(turn: Turn)

  /** The turn id of the job a step took, if it took one. */
  function JobOf(r: StepResult): Option<string> {
    match r
    case Waiting => None
    case Skipped(id) => Some(id)
    case Processed(t) => Some(t.turnId)
  }

  /** The turn written back after `pipeline.run`: when an exception escaped,
      its status becomes `error` and its message is recorded. */
  function Settle(t: Turn, raised: Option<string>): Turn {
    match raised
    case None => t
    case Some(m) => t.(status := Error, error := Some(m))
  }

  /** A processed turn ends in `done` or `error`, along a legal path of
      statuses from `queued`. When the pipeline raised, the turn keeps
      every field set before the failure and records the message; the
      turn's identity never changes. */
  lemma ProcessedTurnEnds(systemPrompt: string, history: seq<Message>, turn: Turn,
                          asr: Outcome<Option<string>>, llm: Outcome<string>, tts: Outcome<string>)
    ensures
      var r := RunTurn(systemPrompt, history, turn, asr, llm, tts);
      var s := Settle(r.turn, r.raised);
      && Terminal(s.status)
      && s.turnId == turn.turnId && s.sessionId == turn.sessionId
      && LegalPath([Queued] + r.statuses + (if r.raised.Some? then [Error] else []))
      && (r.raised.Some? ==> s == r.turn.(status := Error, error := r.raised))
  {
    var r := RunTurn(systemPrompt, history, turn, asr, llm, tts);
    RunTurnOutcome(systemPrompt, history, turn, asr, llm, tts, r);
    RunTurnStages(systemPrompt, history, turn, asr, llm, tts, r);
    if r.raised.Some? {
      var p := [Queued] + r.statuses;
      var q := p + [Error];
      assert !Terminal(p[|p| - 1]);
      forall i | 0 <= i < |q| - 1 ensures CanMove(q[i], q[i + 1]) {
        if i < |p| - 1 {
          assert q[i] == p[i] && q[i + 1] == p[i + 1];
        }
      }
    } else {
      assert [Queued] + r.statuses + [] == [Queued] + r.statuses;
    }
  }

  class WorkerPool {
    const store: TurnStore
    const pipeline: VoicePipeline
    const concurrency: int
    /** The `asyncio.Queue` of jobs, front first. */
    var queue: seq<Job>
    /** The queue's count of jobs not yet marked `task_done`. */
    var unfinished: nat
    /** `_tasks`: the executor tasks created so far. */
    var tasks: seq<Task>
    /** Every job ever enqueued, and the jobs taken from the front so far. */
    ghost var enqueued: seq<Job>
    ghost var taken: seq<Job>

    /** Jobs leave in the order they arrived, and every job taken has been
        marked done. */
    ghost predicate Valid()
      reads this, store, pipeline
    {
      && store.Valid()
      && pipeline.Valid()
      && enqueued == taken + queue
      && unfinished == |queue|
    }

    constructor (store: TurnStore, pipeline: VoicePipeline, concurrency: int)
      requires store.Valid() && pipeline.Valid()
      ensures Valid()
      ensures this.store == store && this.pipeline == pipeline && this.concurrency == concurrency
      ensures queue == [] && tasks == [] && enqueued == [] && taken == []
    {
      this.store := store;
      this.pipeline := pipeline;
      this.concurrency := concurrency;
      queue := [];
      unfinished := 0;
      tasks := [];
      enqueued := [];
      taken := [];
    }

    /** `start()`: creates one executor task per unit of `concurrency`
        (none when it is zero or negative, as `range` gives nothing). */
    method Start()
      requires Valid()
      modifies this
      ensures Valid()
      ensures |tasks| == |old(tasks)| + (if concurrency > 0 then concurrency else 0)
      ensures tasks[..|old(tasks)|] == old(tasks)
      ensures queue == old(queue) && unfinished == old(unfinished)
      ensures enqueued == old(enqueued) && taken == old(taken)
    {
      var i := 0;
      while i < concurrency
        invariant 0 <= i <= (if concurrency > 0 then concurrency else 0)
        invariant |tasks| == |old(tasks)| + i
        invariant tasks[..|old(tasks)|] == old(tasks)
        invariant queue == old(queue) && unfinished == old(unfinished)
        invariant enqueued == old(enqueued) && taken == old(taken)
      {
        tasks := tasks + [WorkerLoop];
        i := i + 1;
      }
    }

    /** `enqueue(turn_id)`: one job at the back of the queue. */
    method Enqueue(turnId: string)
      requires Valid()
      modifies this
      ensures Valid()
      ensures queue == old(queue) + [Job(turnId)]
      ensures unfinished == old(unfinished) + 1
      ensures enqueued == old(enqueued) + [Job(turnId)] && taken == old(taken)
      ensures tasks == old(tasks)
    {
      queue := queue + [Job(turnId)];
      enqueued := enqueued + [Job(turnId)];
      unfinished := unfinished + 1;
    }

    /** One iteration of `_worker_loop`, with the three collaborator
        outcomes the pipeline would see. */
    method Step(asr: Outcome<Option<string>>, llm: Outcome<string>, tts: Outcome<string>) returns (r: StepResult)
      requires Valid()
      modifies this, store, pipeline
      ensures Valid()
      ensures tasks == old(tasks) && enqueued == old(enqueued)
      // an empty queue: nothing happens
      ensures old(queue) == [] ==>
        && r == Waiting && queue == [] && unfinished == old(unfinished) && taken == old(taken)
        && store.turns == old(store.turns) && pipeline.history == old(pipeline.history)
      // otherwise the front job is taken and marked done exactly once
      ensures old(queue) != [] ==>
        && JobOf(r) == Some(old(queue)[0].turnId)
        && queue == old(queue)[1..] && taken == old(taken) + [old(queue)[0]]
        && unfinished == old(unfinished) - 1
      // a job for a turn that is not stored is dropped, nothing else changes
      ensures old(queue) != [] && old(queue)[0].turnId !in old(store.turns) ==>
        && r == Skipped(old(queue)[0].turnId)
        && store.turns == old(store.turns) && pipeline.history == old(pipeline.history)
      // a stored turn goes through the pipeline and is always written back
      ensures old(queue) != [] && old(queue)[0].turnId in old(store.turns) ==>
        var turn := old(store.turns)[old(queue)[0].turnId];
        var run := RunTurn(pipeline.systemPrompt, SessionHistory(old(pipeline.history), turn.sessionId), turn, asr, llm, tts);
        && r == Processed(Settle(run.turn, run.raised))
        && store.turns == old(store.turns)[turn.turnId := r.turn]
        && pipeline.history == Committed(old(pipeline.history), turn.sessionId, run.history)
    {
      if queue == [] {
        r := Waiting;
        return;
      }
      var job := queue[0];
      queue := queue[1..];
      taken := taken + [job];
      var found := store.Get(job.turnId);
      if found.None? {
        unfinished := unfinished - 1;
        r := Skipped(job.turnId);
        return;
      }
      var t := Process(found.value, asr, llm, tts);
      unfinished := unfinished - 1;
      r := Processed(t);
    }

    /** The `try`/`except`/`finally` body for a stored turn: run the
        pipeline, turn an escaped exception into an `error` status, and
        always write the turn back. */
    method Process(turn: Turn, asr: Outcome<Option<string>>, llm: Outcome<string>, tts: Outcome<string>) returns (t: Turn)
      requires store.Valid() && pipeline.Valid()
      modifies store, pipeline
      ensures store.Valid() && pipeline.Valid()
      ensures
        var run := RunTurn(pipeline.systemPrompt, SessionHistory(old(pipeline.history), turn.sessionId), turn, asr, llm, tts);
        && t == Settle(run.turn, run.raised)
        && store.turns == old(store.turns)[turn.turnId := t]
        && pipeline.history == Committed(old(pipeline.history), turn.sessionId, run.history)
    {
      ghost var run := RunTurn(pipeline.systemPrompt, SessionHistory(pipeline.history, turn.sessionId), turn, asr, llm, tts);
      RunTurnStages(pipeline.systemPrompt, SessionHistory(pipeline.history, turn.sessionId), turn, asr, llm, tts, run);
      var raised, statuses, calls;
      t, raised, statuses, calls := pipeline.Run(turn, asr, llm, tts);
      if raised.Some? {
        t := t.(status := Error, error := Some(raised.value));
      }
      store.Put(t);
    }
  }

  /** Two jobs enqueued on an idle pool are taken in the order they were
      enqueued, and both are marked done. */
  method TakesInOrder(pool: WorkerPool, first: string, second: string,
                      asr: Outcome<Option<string>>, llm: Outcome<string>, tts: Outcome<string>)
    returns (a: StepResult, b: StepResult)
    requires pool.Valid() && pool.queue == []
    modifies pool, pool.store, pool.pipeline
    ensures JobOf(a) == Some(first) && JobOf(b) == Some(second)
    ensures pool.queue == [] && pool.unfinished == 0
  {
    pool.Enqueue(first);
    pool.Enqueue(second);
    a := pool.Step(asr, llm, tts);
    b := pool.Step(asr, llm, tts);
  }
}
