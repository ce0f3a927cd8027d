/** The in-process job queue: a slice of jobs, appended to at the back and
    resliced at the front. */
module JobQueue {
  import opened Common

  datatype Job = Job(id: int, message: string)

  /** The zero value `Job{}`. */
  const ZeroJob: Job := Job(0, "")

  class Queue {
    var jobs: seq<Job>

    /** `&Queue{}`: no jobs. */
    constructor ()
      ensures jobs == []
    {
      jobs := [];
    }

    /** Appends the job at the back. */
    method Enqueue(job: Job)
      modifies this
      ensures jobs == old(jobs) + [job]
    {
      jobs := jobs + [job];
    }

    /** Takes the job at the front; on an empty queue, the zero job, and the
        queue stays empty. */
    method Dequeue() returns (job: Job)
      modifies this
      ensures old(jobs) == [] ==> job == ZeroJob && jobs == []
      ensures old(jobs) != [] ==> job == old(jobs)[0] && jobs == old(jobs)[1..]
      ensures old(jobs) != [] ==> old(jobs) == [job] + jobs
    {
      if |jobs| == 0 {
        return ZeroJob;
      }
      job := jobs[0];
      jobs := jobs[1..];
    }

    /** Whether no job is waiting. */
    method IsEmpty() returns (empty: bool)
      ensures empty <==> |jobs| == 0
    {
      empty := |jobs| == 0;
    }
  }

  /** The `for !queue.IsEmpty()` loop: dequeues until the queue is empty and
      hands each job on, in the order dequeued. */
  method Drain(q: Queue) returns (dispatched: seq<Job>)
    modifies q
    ensures dispatched == old(q.jobs)
    ensures q.jobs == []
  {
    dispatched := [];
    var empty := q.IsEmpty();
    while !empty
      invariant empty <==> q.jobs == []
      invariant dispatched + q.jobs == old(q.jobs)
      decreases |q.jobs|
    {
      var job := q.Dequeue();
      dispatched := dispatched + [job];
      empty := q.IsEmpty();
    }
  }

  /** RunQueue without the goroutines: the three notification jobs are
      enqueued and then dispatched in exactly that order. */
  method RunQueue() returns (dispatched: seq<Job>)
    ensures dispatched == [Job(1, "Welcome to our service!"),
                           Job(2, "Your account has been activated."),
                           Job(3, "Your password reset link.")]
  {
    var queue := new Queue();
    queue.Enqueue(Job(1, "Welcome to our service!"));
    queue.Enqueue(Job(2, "Your account has been activated."));
    queue.Enqueue(Job(3, "Your password reset link."));
    dispatched := Drain(queue);
  }

  // ---------------------------------------------------------------------------
  // any interleaving of the operations is first in, first out

  /** One call on the queue. */
  datatype Op = EnqueueOp(job: Job) | DequeueOp

  /** The queue after a run of calls, and what each Dequeue returned: `None`
      where it found the queue empty (and returned the zero job). */
  function Replay(jobs: seq<Job>, ops: seq<Op>): (seq<Job>, seq<Option<Job>>) {
    if ops == [] then (jobs, [])
    else
      var (q, out) := Replay(jobs, ops[..|ops| - 1]);
      match ops[|ops| - 1]
      case EnqueueOp(job) => (q + [job], out)
      case DequeueOp => if q == [] then (q, out + [None]) else (q[1..], out + [Some(q[0])])
  }

  /** The jobs handed to Enqueue, in call order. */
  function Enqueued(ops: seq<Op>): (js: seq<Job>)
    ensures |js| <= |ops|
  {
    if ops == [] then []
    else
      var last := ops[|ops| - 1];
      Enqueued(ops[..|ops| - 1]) + if last.EnqueueOp? then [last.job] else []
  }

  /** The jobs some Dequeue returned, in call order. */
  function Served(out: seq<Option<Job>>): (js: seq<Job>)
    ensures |js| <= |out|
  {
    if out == [] then [] else Served(out[..|out| - 1]) + if out[|out| - 1].Some? then [out[|out| - 1].value] else []
  }

  /** First in, first out: after any run of calls, the jobs served so far
      followed by the jobs still queued are the jobs initially queued followed
      by the jobs enqueued, in the same order. No job is lost, duplicated or
      overtaken. */
  lemma {:induction false} Fifo(jobs: seq<Job>, ops: seq<Op>)
    ensures Served(Replay(jobs, ops).1) + Replay(jobs, ops).0 == jobs + Enqueued(ops)
  {
    if ops != [] {
      var init := ops[..|ops| - 1];
      Fifo(jobs, init);
      var (q, out) := Replay(jobs, init);
      match ops[|ops| - 1]
      case EnqueueOp(job) =>
        assert Served(out) + (q + [job]) == (Served(out) + q) + [job];
      case DequeueOp =>
        if q == [] {
          assert Served(out + [None]) == Served(out);
        } else {
          assert (out + [Some(q[0])])[..|out|] == out;
          assert Served(out + [Some(q[0])]) == Served(out) + [q[0]];
          assert Served(out) + [q[0]] + q[1..] == Served(out) + q;
        }
    }
  }
}
