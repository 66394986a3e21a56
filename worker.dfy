/** The worker's consume loop: poll the jobs queue, hand each job to the plot
    or the method handler, publish exactly one response per job on the
    result queue, and stop after three jobs. The broker connection, storage,
    logging and the one-second pause between polls are outside the model;
    publishing is appending to the sequence of published responses. */
module Worker {
  import opened Values
  import opened Handlers

  /** How many jobs one run of the worker processes. */
  const MaxJobs: nat := 3

  /** The jobs queue whose jobs are plots; any other queue holds method jobs. */
  const PlotJobsQueue := "plot_jobs"

  /** The body of a message: empty, not a UTF-8 JSON object, or a decoded
      JSON object. */
  datatype Body = EmptyBody | NotAnObject | Object(fields: map<string, Json>)

  /** A message taken from the jobs queue, with what the collaborators
      outside the model do while it is handled. */
  datatype Delivery = Delivery(body: Body, effects: Effects)

  /** `all(job)`: the poll returned a message and its body is not empty. */
  predicate IsJob(polled: Option<Delivery>) {
    polled.Some? && !polled.value.body.EmptyBody?
  }

  /** What handling one job ends in: a published response, or an exception
      that escapes the loop and ends the process. */
  datatype Handled = Published(response: Response) | Crashed

  /** The handler the worker uses: chosen once, by the name of its queue. */
  function Process(jobsQueueName: string, fields: map<string, Json>, effects: Effects): Outcome {
    if jobsQueueName == PlotJobsQueue then ProcessPlot(fields, effects) else ProcessMethod(fields, effects)
  }

  /** One job: its handler's response is published; if the handler raises,
      an error response carrying the body's `job_id` is published instead.
      When the body has no `job_id` (or is not a JSON object), building that
      error response raises in turn, and the exception leaves the loop. */
  function Handle(jobsQueueName: string, job: Delivery): (h: Handled)
    ensures h.Crashed? <==> !(job.body.Object? && "job_id" in job.body.fields)
    ensures h.Published? ==> h.response.jobId == job.body.fields["job_id"]
  {
    match job.body
    case Object(fields) =>
      (match Process(jobsQueueName, fields, job.effects)
       case Returned(response) => Published(response)
       case Threw(e) =>
         if "job_id" in fields then Published(ErrorResponse(fields["job_id"], e)) else Crashed)
    case _ => Crashed
  }

  /** What is published for a job with a `job_id`: the handler's own
      response when it returns, the error response for the exception when
      it raises. */
  lemma HandleReportsOutcome(jobsQueueName: string, job: Delivery)
    requires job.body.Object? && "job_id" in job.body.fields
    ensures var o := Process(jobsQueueName, job.body.fields, job.effects);
      (o.Returned? ==> Handle(jobsQueueName, job) == Published(o.response)) &&
      (o.Threw? ==> Handle(jobsQueueName, job) == Published(ErrorResponse(job.body.fields["job_id"], o.error)))
  {
  }

  /** A job whose handler raises is answered with a failure: a known
      exception raised while reading the meta table of a method job, for
      instance, reaches the response as its id and its message. */
  lemma KnownErrorReported(jobsQueueName: string, job: Delivery, id: string,
                           description: Option<string>, hint: Option<string>)
    requires jobsQueueName != PlotJobsQueue
    requires job.body.Object? && "job_id" in job.body.fields && "file_meta" in job.body.fields
    requires job.effects.readMeta == Raises(Known(id, description, hint))
    ensures Handle(jobsQueueName, job) ==
      Published(Failure(job.body.fields["job_id"], id, ErrorMessage(description, hint)))
  {
  }

  /** Whatever a handler raises, a job with a `job_id` is answered with a
      failure carrying that `job_id`. */
  lemma FailedJobAnsweredWithFailure(jobsQueueName: string, job: Delivery)
    requires job.body.Object? && "job_id" in job.body.fields
    requires Process(jobsQueueName, job.body.fields, job.effects).Threw?
    ensures Handle(jobsQueueName, job).Published?
    ensures Handle(jobsQueueName, job).response.Failure?
    ensures Handle(jobsQueueName, job).response.jobId == job.body.fields["job_id"]
  {
  }

  /** The jobs among a sequence of polls: the messages whose poll counts. */
  function Jobs(polls: seq<Option<Delivery>>): (jobs: seq<Delivery>)
    ensures |jobs| <= |polls|
  {
    if polls == [] then []
    else
      var last := polls[|polls| - 1];
      Jobs(polls[..|polls| - 1]) + (if IsJob(last) then [last.value] else [])
  }

  /** A poll adds one job when it returned a non-empty message, and none
      otherwise. */
  lemma {:induction false} JobsStep(polls: seq<Option<Delivery>>, polled: Option<Delivery>)
    ensures Jobs(polls + [polled]) == Jobs(polls) + (if IsJob(polled) then [polled.value] else [])
  {
  }

  /** The number of jobs among some polls is the number of polls that
      returned a non-empty message. */
  lemma {:induction false} JobsCount(polls: seq<Option<Delivery>>)
    ensures |Jobs(polls)| == |set i | 0 <= i < |polls| && IsJob(polls[i])|
  {
    if polls != [] {
      var n := |polls| - 1;
      JobsCount(polls[..n]);
      var before := set i | 0 <= i < n && IsJob(polls[..n][i]);
      var now := set i | 0 <= i < |polls| && IsJob(polls[i]);
      assert before == set i | 0 <= i < n && IsJob(polls[i]);
      if IsJob(polls[n]) {
        assert now == before + {n};
      } else {
        assert now == before;
      }
    }
  }

  /** The handler is chosen only by whether the queue is the plot queue. */
  lemma HandlerChoice(queue1: string, queue2: string, job: Delivery)
    requires (queue1 == PlotJobsQueue) <==> (queue2 == PlotJobsQueue)
    ensures Handle(queue1, job) == Handle(queue2, job)
  {
  }

  /** The consume loop. `polls` are the successive results of polling the
      jobs queue (`None` when it was empty). It stops after `MaxJobs` jobs, or
      when an exception escapes (`crashed`), or when no poll is left; the
      worker itself keeps polling an empty queue for as long as it runs.
      `consumed` is the number of polls made. */
  method Consume(jobsQueueName: string, polls: seq<Option<Delivery>>)
    returns (published: seq<Response>, jobsRunned: nat, consumed: nat, crashed: bool)
    ensures consumed <= |polls|
    ensures jobsRunned == |published| <= MaxJobs
    ensures var jobs := Jobs(polls[..consumed]);
      |jobs| == jobsRunned + (if crashed then 1 else 0) && |jobs| <= MaxJobs &&
      (forall k :: 0 <= k < jobsRunned ==> Handle(jobsQueueName, jobs[k]) == Published(published[k])) &&
      (crashed ==> Handle(jobsQueueName, jobs[jobsRunned]) == Crashed)
    ensures forall k :: 0 <= k < jobsRunned ==>
      var job := Jobs(polls[..consumed])[k];
      job.body.Object? && "job_id" in job.body.fields && published[k].jobId == job.body.fields["job_id"]
    ensures !crashed ==> jobsRunned == MaxJobs || consumed == |polls|
    ensures (crashed || jobsRunned == MaxJobs) ==> consumed > 0 && IsJob(polls[consumed - 1])
  {
    published, jobsRunned, consumed, crashed := [], 0, 0, false;
    while jobsRunned < MaxJobs && consumed < |polls|
      invariant consumed <= |polls|
      invariant jobsRunned == |published| <= MaxJobs
      invariant |Jobs(polls[..consumed])| == jobsRunned
      invariant forall k :: 0 <= k < jobsRunned ==>
        Handle(jobsQueueName, Jobs(polls[..consumed])[k]) == Published(published[k])
      invariant jobsRunned == MaxJobs ==> consumed > 0 && IsJob(polls[consumed - 1])
    {
      var polled := polls[consumed];
      JobsStep(polls[..consumed], polled);
      assert polls[..consumed + 1] == polls[..consumed] + [polled];
      consumed := consumed + 1;
      if IsJob(polled) {
        var handled := Handle(jobsQueueName, polled.value);
        if handled.Crashed? {
          crashed := true;
          return;
        }
        published := published + [handled.response];
        jobsRunned := jobsRunned + 1;
      }
    }
  }
}
