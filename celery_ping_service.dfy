/**
 * The Celery ping probe (`AsyncCeleryPingHealthCheck`): its `_run_check`,
 * `check_ping_result` and `check_active_queues`.
 *
 * The Celery application is an input: what `control.ping` does for a given
 * timeout, the configured `CELERY_QUEUES` names, and what
 * `control.inspect(workers).active_queues()` replies for a list of workers.
 * The probe's methods act on the `Service` whose check runs.
 */
module CeleryPing {
  import opened Wrappers
  import opened Values
  import opened Exceptions
  import opened BaseService

  /** The exception `control.ping` raised, as the probe's `except` clauses tell them apart. */
  datatype PingFailure =
    | IOErrorRaised
    | NotImplementedRaised
    | OtherRaised

  /** One worker's entry of the ping result: the items of its `{worker: response}` dict, in order. */
  type WorkerReply = seq<(string, Value)>

  /**
   * What `control.ping` did: raised, or returned a list of worker replies
   * (a `None` result is falsy like `[]` and is written `[]`).
   */
  datatype PingOutcome =
    | PingRaised(failure: PingFailure)
    | PingReplied(replies: seq<WorkerReply>)

  /** One queue description of an `active_queues` reply. */
  type QueueEntry = map<string, Value>

  /** The reply of `active_queues`: per worker its queues, or `None` when no worker answered. */
  type QueueReply = Option<map<string, seq<QueueEntry>>>

  /** The Celery application as the probe sees it. */
  datatype CeleryApp = CeleryApp(
    ping: Value -> PingOutcome,
    queues: seq<string>,
    inspect: seq<string> -> QueueReply)

  /** `CORRECT_PING_RESPONSE`. */
  const CorrectPingResponse: Value := Dict(map["ok" := Str("pong")])

  const IOErrorMessage: string := "IOError"
  const NotImplementedMessage: string := "NotImplementedError: Make sure CELERY_RESULT_BACKEND is set"
  const UnknownPingMessage: string := "Unknown error"
  const WorkersUnavailableMessage: string := "Celery workers unavailable"
  const QueuePrefix: string := "No worker for Celery task queue "

  /** A `ServiceUnavailable` error with `message`. */
  function Unavailable(message: string): HealthCheckError
  {
    HealthCheckError(ServiceUnavailable, message)
  }

  /** The message `_run_check` records for each kind of ping exception. */
  function PingMessage(f: PingFailure): string
  {
    match f
    case IOErrorRaised => IOErrorMessage
    case NotImplementedRaised => NotImplementedMessage
    case OtherRaised => UnknownPingMessage
  }

  /** The three ping exceptions are told apart by their messages. */
  lemma PingMessagesDistinct(f: PingFailure, g: PingFailure)
    ensures PingMessage(f) == PingMessage(g) <==> f == g
  {
    if f != g {
      assert PingMessage(f)[0] != PingMessage(g)[0] || |PingMessage(f)| != |PingMessage(g)|;
    }
  }

  function IncorrectMessage(worker: string): string
  {
    "Celery worker " + worker + " response was incorrect"
  }

  function QueueMessage(queue: string): string
  {
    QueuePrefix + queue
  }

  /** Different queues get different messages. */
  lemma QueueMessageInjective(a: string, b: string)
    ensures QueueMessage(a) == QueueMessage(b) ==> a == b
  {
    if QueueMessage(a) == QueueMessage(b) {
      assert a == QueueMessage(a)[|QueuePrefix|..];
      assert b == QueueMessage(b)[|QueuePrefix|..];
    }
  }

  /** The index of the first reply with no item, where `list(result.items())[0]` raises `IndexError`; `|replies|` if none. */
  function FirstEmpty(replies: seq<WorkerReply>): (j: nat)
    ensures j <= |replies|
    ensures forall k :: 0 <= k < j ==> replies[k] != []
    ensures j < |replies| ==> replies[j] == []
  {
    if replies == [] || replies[0] == [] then 0
    else
      var j := 1 + FirstEmpty(replies[1..]);
      assert forall k :: 1 <= k < j ==> replies[k] == replies[1..][k - 1];
      j
  }

  /** The first item of every reply: the `(worker, response)` pair the loop reads. */
  function Heads(replies: seq<WorkerReply>): (items: seq<(string, Value)>)
    requires forall k :: 0 <= k < |replies| ==> replies[k] != []
    ensures |items| == |replies|
  {
    if replies == [] then [] else Heads(replies[..|replies| - 1]) + [replies[|replies| - 1][0]]
  }

  /** Item `k` of the heads is the first item of reply `k`. */
  lemma {:induction false} HeadsAt(replies: seq<WorkerReply>, k: nat)
    requires forall i :: 0 <= i < |replies| ==> replies[i] != []
    requires k < |replies|
    ensures Heads(replies)[k] == replies[k][0]
  {
    if k < |replies| - 1 {
      HeadsAt(replies[..|replies| - 1], k);
    }
  }

  /** What validating the workers' responses leaves: the errors added and the active workers, in order. */
  datatype Verdict = Verdict(errors: seq<HealthCheckError>, active: seq<string>)

  /**
   * The loop of `check_ping_result` over `items`: a worker with the wrong
   * response adds an error naming it, every other worker is active.
   */
  function Verdicts(items: seq<(string, Value)>): (v: Verdict)
    ensures |v.errors| + |v.active| == |items|
  {
    if items == [] then Verdict([], [])
    else
      var previous := Verdicts(items[..|items| - 1]);
      var (worker, response) := items[|items| - 1];
      if response != CorrectPingResponse then
        Verdict(previous.errors + [Unavailable(IncorrectMessage(worker))], previous.active)
      else
        Verdict(previous.errors, previous.active + [worker])
  }

  /** The worker validation adds no error exactly when every worker answered correctly. */
  lemma {:induction false} NoWorkerErrorIff(items: seq<(string, Value)>)
    ensures Verdicts(items).errors == [] <==> forall k :: 0 <= k < |items| ==> items[k].1 == CorrectPingResponse
  {
    if items != [] {
      var init := items[..|items| - 1];
      NoWorkerErrorIff(init);
      assert forall k :: 0 <= k < |init| ==> init[k] == items[k];
    }
  }

  /** Every error of the worker validation is a `ServiceUnavailable` one. */
  lemma {:induction false} WorkerErrorsUnavailable(items: seq<(string, Value)>)
    ensures forall e :: e in Verdicts(items).errors ==> e.kind == ServiceUnavailable
  {
    if items != [] {
      WorkerErrorsUnavailable(items[..|items| - 1]);
    }
  }

  /** Every worker that answered correctly is active. */
  lemma {:induction false} CorrectWorkerActive(items: seq<(string, Value)>, k: nat)
    requires k < |items| && items[k].1 == CorrectPingResponse
    ensures items[k].0 in Verdicts(items).active
  {
    var init := items[..|items| - 1];
    if k < |init| {
      CorrectWorkerActive(init, k);
    }
  }

  /** The workers named by `items`, in order. */
  function Workers(items: seq<(string, Value)>): (ws: seq<string>)
    ensures |ws| == |items|
    ensures forall k :: 0 <= k < |items| ==> ws[k] == items[k].0
  {
    seq(|items|, k requires 0 <= k < |items| => items[k].0)
  }

  /** When every response is correct, every worker is active, in the order of the ping result. */
  lemma {:induction false} CleanPingKeepsAllWorkers(items: seq<(string, Value)>)
    requires forall k :: 0 <= k < |items| ==> items[k].1 == CorrectPingResponse
    ensures Verdicts(items) == Verdict([], Workers(items))
  {
    if items != [] {
      var init := items[..|items| - 1];
      CleanPingKeepsAllWorkers(init);
      assert Workers(items) == Workers(init) + [items[|items| - 1].0];
    }
  }

  /** A worker is active only if it answered with the correct response. */
  lemma {:induction false} ActiveWorkersAnsweredCorrectly(items: seq<(string, Value)>, w: string)
    requires w in Verdicts(items).active
    ensures exists k :: 0 <= k < |items| && items[k] == (w, CorrectPingResponse)
  {
    var init := items[..|items| - 1];
    if w in Verdicts(init).active {
      ActiveWorkersAnsweredCorrectly(init, w);
      var k :| 0 <= k < |init| && init[k] == (w, CorrectPingResponse);
      assert items[k] == init[k];
    } else {
      assert items[|items| - 1] == (w, CorrectPingResponse);
    }
  }

  /** Every worker with a wrong response is named by one of the errors. */
  lemma {:induction false} IncorrectWorkerReported(items: seq<(string, Value)>, k: nat)
    requires k < |items| && items[k].1 != CorrectPingResponse
    ensures Unavailable(IncorrectMessage(items[k].0)) in Verdicts(items).errors
  {
    var init := items[..|items| - 1];
    if k < |init| {
      IncorrectWorkerReported(init, k);
    }
  }

  /** The error the loop owes one item: one naming a wrongly answering worker, none otherwise. */
  function ErrorFor(item: (string, Value)): seq<HealthCheckError>
  {
    if item.1 != CorrectPingResponse then [Unavailable(IncorrectMessage(item.0))] else []
  }

  /** The worker the loop owes one item: a correctly answering worker, none otherwise. */
  function WorkerFor(item: (string, Value)): seq<string>
  {
    if item.1 == CorrectPingResponse then [item.0] else []
  }

  /**
   * `[err(w) for (w, r) in items if r != CORRECT_PING_RESPONSE]`, read from
   * the front: an independent definition of the loop's errors.
   */
  function WrongErrors(items: seq<(string, Value)>): (es: seq<HealthCheckError>)
    ensures |es| <= |items|
  {
    if items == [] then [] else ErrorFor(items[0]) + WrongErrors(items[1..])
  }

  /** `[w for (w, r) in items if r == CORRECT_PING_RESPONSE]`, read from the front. */
  function CorrectWorkers(items: seq<(string, Value)>): (ws: seq<string>)
    ensures |ws| <= |items|
  {
    if items == [] then [] else WorkerFor(items[0]) + CorrectWorkers(items[1..])
  }

  lemma {:induction false} FiltersSnoc(items: seq<(string, Value)>, x: (string, Value))
    ensures WrongErrors(items + [x]) == WrongErrors(items) + ErrorFor(x)
    ensures CorrectWorkers(items + [x]) == CorrectWorkers(items) + WorkerFor(x)
  {
    if items != [] {
      assert (items + [x])[1..] == items[1..] + [x];
      FiltersSnoc(items[1..], x);
    } else {
      assert [x][1..] == [];
    }
  }

  /**
   * The loop's verdict is exactly the two filters: one error per wrongly
   * answering worker and the correctly answering workers, both in the order
   * of the ping result.
   */
  lemma {:induction false} VerdictsExact(items: seq<(string, Value)>)
    ensures Verdicts(items) == Verdict(WrongErrors(items), CorrectWorkers(items))
  {
    if items != [] {
      var init := items[..|items| - 1];
      VerdictsExact(init);
      FiltersSnoc(init, items[|items| - 1]);
      assert init + [items[|items| - 1]] == items;
    }
  }

  /** An error of the filter names a worker that answered wrongly, and every such worker is named. */
  lemma {:induction false} WrongErrorsNameWrongWorkers(items: seq<(string, Value)>, e: HealthCheckError)
    ensures e in WrongErrors(items) <==>
      exists k :: 0 <= k < |items| && items[k].1 != CorrectPingResponse && e == Unavailable(IncorrectMessage(items[k].0))
  {
    if items != [] {
      WrongErrorsNameWrongWorkers(items[1..], e);
      if e in WrongErrors(items[1..]) {
        var k :| 0 <= k < |items[1..]| && items[1..][k].1 != CorrectPingResponse && e == Unavailable(IncorrectMessage(items[1..][k].0));
        assert items[k + 1] == items[1..][k];
      }
      forall k | 0 <= k < |items| && items[k].1 != CorrectPingResponse && e == Unavailable(IncorrectMessage(items[k].0))
        ensures e in WrongErrors(items)
      {
        if k > 0 {
          assert items[1..][k - 1] == items[k];
        }
      }
    }
  }

  /** Every error of the worker validation names a worker that answered wrongly. */
  lemma {:induction false} WorkerErrorNamesWrongWorker(items: seq<(string, Value)>, e: HealthCheckError)
    requires e in Verdicts(items).errors
    ensures exists k :: 0 <= k < |items| && items[k].1 != CorrectPingResponse && e == Unavailable(IncorrectMessage(items[k].0))
  {
    VerdictsExact(items);
    assert e in WrongErrors(items);
    WrongErrorsNameWrongWorkers(items, e);
  }

  /** The names of the queues in the `active_queues` reply, `queue.get("name")` giving `None` when absent. */
  function NameOf(entry: QueueEntry): Value
  {
    if "name" in entry then entry["name"] else NoneValue
  }

  /** The union of the queue names over a set of workers' queue lists. */
  ghost function NamesIn(lists: set<seq<QueueEntry>>): set<Value>
  {
    set queues, e | queues in lists && e in queues :: NameOf(e)
  }

  /** The defined queues no active worker consumes: `defined_queues.difference(active_queues)`. */
  function MissingQueues(defined: seq<string>, active: set<Value>): (missing: set<string>)
    ensures forall q :: q in missing <==> q in defined && Str(q) !in active
  {
    set q | q in defined && Str(q) !in active
  }

  /** The errors reporting the queues of `missing`. */
  ghost function MissingErrors(missing: set<string>): set<HealthCheckError>
  {
    set q | q in missing :: Unavailable(QueueMessage(q))
  }

  lemma MissingErrorsAdd(done: set<string>, q: string)
    ensures MissingErrors(done + {q}) == MissingErrors(done) + {Unavailable(QueueMessage(q))}
  {
  }

  /** `added` holds exactly one error per queue of `missing`, in some order. */
  ghost predicate IsQueueErrors(added: seq<HealthCheckError>, missing: set<string>)
  {
    |added| == |missing|
    && (forall i, j :: 0 <= i < j < |added| ==> added[i] != added[j])
    && (forall e :: e in added <==> e in MissingErrors(missing))
  }

  /**
   * The queue check adds exactly one error per defined queue that no active
   * worker consumes, and names no other queue.
   */
  lemma QueueErrorsNameMissing(added: seq<HealthCheckError>, defined: seq<string>, active: set<Value>)
    requires IsQueueErrors(added, MissingQueues(defined, active))
    ensures |added| == |MissingQueues(defined, active)|
    ensures forall q :: Unavailable(QueueMessage(q)) in added <==> q in defined && Str(q) !in active
    ensures forall e :: e in added ==> e.kind == ServiceUnavailable
  {
    forall q | Unavailable(QueueMessage(q)) in added
      ensures q in defined && Str(q) !in active
    {
      var q' :| q' in MissingQueues(defined, active) && Unavailable(QueueMessage(q')) == Unavailable(QueueMessage(q));
      QueueMessageInjective(q, q');
    }
  }

  /** When every defined queue is consumed by some active worker, the queue check adds nothing. */
  lemma CoveredQueuesAddNothing(added: seq<HealthCheckError>, defined: seq<string>, active: set<Value>)
    requires IsQueueErrors(added, MissingQueues(defined, active))
    requires forall k :: 0 <= k < |defined| ==> Str(defined[k]) in active
    ensures added == []
  {

  }

  /** The outcome of `check_active_queues` for the workers `active`: errors go from `before` to `after`. */
  ghost predicate QueuesChecked(app: CeleryApp, active: seq<string>, before: seq<HealthCheckError>, after: seq<HealthCheckError>, ending: Ending)
  {
    if app.queues == [] then after == before && ending == Returned
    else match app.inspect(active)
      case None => after == before && ending == RaisedOther
      case Some(info) =>
        ending == Returned && |before| <= |after| && after[..|before|] == before
        && IsQueueErrors(after[|before|..], MissingQueues(app.queues, NamesIn(info.Values)))
  }

  /**
   * The outcome of `check_ping_result`: the worker errors, then the queue check
   * only when the service has no error at all; an item-less reply raises
   * `IndexError` after the errors of the replies before it.
   */
  ghost predicate PingResultChecked(app: CeleryApp, replies: seq<WorkerReply>, before: seq<HealthCheckError>, after: seq<HealthCheckError>, ending: Ending)
  {
    var v := Validated(replies);
    if FirstEmpty(replies) < |replies| then after == before + v.errors && ending == RaisedOther
    else if before + v.errors != [] then after == before + v.errors && ending == Returned
    else QueuesChecked(app, v.active, before, after, ending)
  }

  /** The outcome of the probe's `_run_check` with the ping timeout `timeout`. */
  ghost predicate PingProbed(app: CeleryApp, timeout: Value, before: seq<HealthCheckError>, after: seq<HealthCheckError>, ending: Ending)
  {
    match app.ping(timeout)
    case PingRaised(f) => after == before + [Unavailable(PingMessage(f))] && ending == Returned
    case PingReplied(replies) =>
      if replies == [] then after == before + [Unavailable(WorkersUnavailableMessage)] && ending == Returned
      else PingResultChecked(app, replies, before, after, ending)
  }

  /**
   * The probe never raises a domain error, only keeps earlier errors and adds
   * `ServiceUnavailable` ones.
   */
  lemma PingProbeOnlyAddsUnavailable(app: CeleryApp, timeout: Value, before: seq<HealthCheckError>, after: seq<HealthCheckError>, ending: Ending)
    requires PingProbed(app, timeout, before, after, ending)
    ensures !ending.RaisedDomain?
    ensures |before| <= |after| && after[..|before|] == before
    ensures forall k :: |before| <= k < |after| ==> after[k].kind == ServiceUnavailable
  {
    var outcome := app.ping(timeout);
    if outcome.PingReplied? && outcome.replies != [] {
      var replies := outcome.replies;
      var v := Validated(replies);
      WorkerErrorsUnavailable(Heads(replies[..FirstEmpty(replies)]));
      if FirstEmpty(replies) == |replies| && before + v.errors == [] && app.queues != [] && app.inspect(v.active).Some? {
        var info := app.inspect(v.active).value;
        var added := after[|before|..];
        QueueErrorsNameMissing(added, app.queues, NamesIn(info.Values));
        forall k | |before| <= k < |after| ensures after[k].kind == ServiceUnavailable {
          assert after[k] == added[k - |before|];
        }
      } else {
        forall k | |before| <= k < |after| ensures after[k].kind == ServiceUnavailable {
          if k < |before + v.errors| {
            assert after[k] == v.errors[k - |before|];
          }
        }
      }
    }
  }

  /** A worker that answered wrongly, in a ping result whose replies all have an item, is named by an error. */
  lemma IncorrectWorkerValidated(replies: seq<WorkerReply>, k: nat)
    requires forall i :: 0 <= i < |replies| ==> replies[i] != []
    requires k < |replies| && replies[k][0].1 != CorrectPingResponse
    ensures FirstEmpty(replies) == |replies|
    ensures Unavailable(IncorrectMessage(replies[k][0].0)) in Validated(replies).errors
  {
    ValidatedAt(replies, |replies|);
    assert replies[..|replies|] == replies;
    HeadsAt(replies, k);
    IncorrectWorkerReported(Heads(replies), k);
  }

  /**
   * A ping result whose first reply has no item raises `IndexError` before
   * any error is added, so `run_check` swallows it and the service reports no error.
   */
  lemma ItemlessReplyAddsNothing(app: CeleryApp, timeout: Value, before: seq<HealthCheckError>, after: seq<HealthCheckError>, ending: Ending)
    requires PingProbed(app, timeout, before, after, ending)
    requires app.ping(timeout).PingReplied? && app.ping(timeout).replies != [] && app.ping(timeout).replies[0] == []
    ensures after == before && ending == RaisedOther
  {
    var replies := app.ping(timeout).replies;
    ValidatedAt(replies, 0);
    assert Validated(replies) == Verdicts([]);
  }

  /** Once some worker answered wrongly, the queues are not inspected and no queue error is added. */
  lemma NoQueueCheckAfterWorkerError(app: CeleryApp, replies: seq<WorkerReply>, before: seq<HealthCheckError>, after: seq<HealthCheckError>, ending: Ending, k: nat)
    requires PingResultChecked(app, replies, before, after, ending)
    requires forall i :: 0 <= i < |replies| ==> replies[i] != []
    requires k < |replies| && replies[k][0].1 != CorrectPingResponse
    ensures after == before + Validated(replies).errors && ending == Returned
    ensures Unavailable(IncorrectMessage(replies[k][0].0)) in after
  {
    IncorrectWorkerValidated(replies, k);
    assert Validated(replies).errors != [];
  }

  /** The union loop of `check_active_queues`: the queue names in the reply `info`. */
  method ActiveQueueNames(info: map<string, seq<QueueEntry>>) returns (names: set<Value>)
    ensures names == NamesIn(info.Values)
  {
    names := {};
    var pending := info.Values;
    while pending != {}
      invariant pending <= info.Values
      invariant names == NamesIn(info.Values - pending)
      decreases pending
    {
      var queues :| queues in pending;
      names := names + (set e | e in queues :: NameOf(e));
      pending := pending - {queues};
    }
    assert info.Values - pending == info.Values;
  }

  /** Reporting one more missing queue keeps one error per reported queue. */
  lemma QueueErrorsAdd(added: seq<HealthCheckError>, done: set<string>, q: string)
    requires IsQueueErrors(added, done) && q !in done
    ensures IsQueueErrors(added + [Unavailable(QueueMessage(q))], done + {q})
  {
    var error := Unavailable(QueueMessage(q));
    forall q' | q' in done ensures Unavailable(QueueMessage(q')) != error {
      QueueMessageInjective(q', q);
    }
    MissingErrorsAdd(done, q);
  }

  /** The last loop of `check_active_queues`: one error per queue of `missing`, in the set's iteration order. */
  method ReportMissing(svc: Service, missing: set<string>)
    modifies svc
    ensures svc.timeTaken == old(svc.timeTaken)
    ensures |old(svc.errors)| <= |svc.errors| && svc.errors[..|old(svc.errors)|] == old(svc.errors)
    ensures IsQueueErrors(svc.errors[|old(svc.errors)|..], missing)
  {
    ghost var before := svc.errors;
    ghost var added: seq<HealthCheckError> := [];
    ghost var done: set<string> := {};
    var remaining := missing;
    while remaining != {}
      invariant remaining <= missing && done == missing - remaining
      invariant svc.errors == before + added && svc.timeTaken == old(svc.timeTaken)
      invariant IsQueueErrors(added, done)
      decreases remaining
    {
      var queue :| queue in remaining;
      QueueErrorsAdd(added, done, queue);
      svc.AddError(Raised(Unavailable(QueueMessage(queue))));
      added := added + [Unavailable(QueueMessage(queue))];
      done := done + {queue};
      remaining := remaining - {queue};
    }
    assert svc.errors[..|before|] == before && svc.errors[|before|..] == added;
  }

  /**
   * `check_active_queues`: without defined queues nothing happens; a missing
   * reply raises `AttributeError` at `.values()`; otherwise one error per
   * defined queue that no active worker consumes.
   */
  method CheckActiveQueues(svc: Service, app: CeleryApp, active: seq<string>) returns (ending: Ending)
    modifies svc
    ensures svc.timeTaken == old(svc.timeTaken)
    ensures QueuesChecked(app, active, old(svc.errors), svc.errors, ending)
  {
    if app.queues == [] {
      return Returned;
    }
    var reply := app.inspect(active);
    if reply.None? {
      return RaisedOther;
    }
    var activeQueues := ActiveQueueNames(reply.value);
    ReportMissing(svc, MissingQueues(app.queues, activeQueues));
    return Returned;
  }

  /**
   * The loop of `check_ping_result`: validates each worker's response in
   * order. It stops with `broken` at an item-less reply, where
   * `list(result.items())[0]` raises `IndexError`.
   */
  method ValidateWorkers(svc: Service, replies: seq<WorkerReply>) returns (active: seq<string>, broken: bool)
    modifies svc
    ensures svc.timeTaken == old(svc.timeTaken)
    ensures broken <==> FirstEmpty(replies) < |replies|
    ensures svc.errors == old(svc.errors) + Validated(replies).errors && active == Validated(replies).active
  {
    ghost var before := svc.errors;
    active := [];
    var i := 0;
    while i < |replies| && replies[i] != []
      invariant 0 <= i <= |replies|
      invariant forall k :: 0 <= k < i ==> replies[k] != []
      invariant svc.errors == before + Verdicts(Heads(replies[..i])).errors
      invariant active == Verdicts(Heads(replies[..i])).active
      invariant svc.timeTaken == old(svc.timeTaken)
    {
      var (worker, response) := replies[i][0];
      ValidateStep(replies, i);
      if response != CorrectPingResponse {
        svc.AddError(Raised(Unavailable(IncorrectMessage(worker))));
      } else {
        active := active + [worker];
      }
      i := i + 1;
    }
    ValidatedAt(replies, i);
    broken := i < |replies|;
  }

  /** Validating one more reply extends the verdict of the replies before it. */
  lemma ValidateStep(replies: seq<WorkerReply>, i: nat)
    requires i < |replies| && forall k :: 0 <= k <= i ==> replies[k] != []
    ensures var previous := Verdicts(Heads(replies[..i]));
      var (worker, response) := replies[i][0];
      Verdicts(Heads(replies[..i + 1])) ==
        if response != CorrectPingResponse then Verdict(previous.errors + [Unavailable(IncorrectMessage(worker))], previous.active)
        else Verdict(previous.errors, previous.active + [worker])
  {
    assert replies[..i + 1][..i] == replies[..i];
    assert Heads(replies[..i + 1])[..i] == Heads(replies[..i]);
  }

  /**
   * `check_ping_result`: validates each worker's response in order, then
   * checks the queues of the active workers when the service has no error.
   */
  method CheckPingResult(svc: Service, app: CeleryApp, replies: seq<WorkerReply>) returns (ending: Ending)
    modifies svc
    ensures svc.timeTaken == old(svc.timeTaken)
    ensures PingResultChecked(app, replies, old(svc.errors), svc.errors, ending)
  {
    var active, broken := ValidateWorkers(svc, replies);
    if broken {
      return RaisedOther;
    }
    if svc.errors == [] {
      ending := CheckActiveQueues(svc, app, active);
    } else {
      ending := Returned;
    }
  }

  /** The verdict on the replies before the first item-less one: what the loop of `check_ping_result` leaves. */
  function Validated(replies: seq<WorkerReply>): (v: Verdict)
    ensures |v.errors| + |v.active| == FirstEmpty(replies)
  {
    Verdicts(Heads(replies[..FirstEmpty(replies)]))
  }

  /** The first empty reply is at `i` when none before `i` is empty and `i` is the end or empty. */
  lemma ValidatedAt(replies: seq<WorkerReply>, i: nat)
    requires i <= |replies| && forall k :: 0 <= k < i ==> replies[k] != []
    requires i < |replies| ==> replies[i] == []
    ensures FirstEmpty(replies) == i && Validated(replies) == Verdicts(Heads(replies[..i]))
  {
  }

  /**
   * `_run_check`: a ping exception records one error whose message depends
   * on the exception; a falsy ping result records "Celery workers
   * unavailable"; otherwise the ping result is checked.
   */
  method RunProbe(svc: Service, app: CeleryApp) returns (ending: Ending)
    modifies svc
    ensures svc.timeTaken == old(svc.timeTaken)
    ensures PingProbed(app, svc.argument, old(svc.errors), svc.errors, ending)
  {
    var outcome := app.ping(svc.argument);
    match outcome
    case PingRaised(f) =>
      svc.AddError(Raised(Unavailable(PingMessage(f))));
      ending := Returned;
    case PingReplied(replies) =>
      if replies == [] {
        svc.AddError(Raised(Unavailable(WorkersUnavailableMessage)));
        ending := Returned;
      } else {
        ending := CheckPingResult(svc, app, replies);
      }
  }

  /**
   * `run_check` of the Celery ping probe between the readings `start` and
   * `end`: the probe's errors stay as it left them, since it never raises a
   * domain error, and the time is set. `ending` is how its `_run_check` ended.
   */
  method RunCheck(svc: Service, app: CeleryApp, start: real, end: real) returns (self: Service, ending: Ending)
    modifies svc
    ensures self == svc
    ensures PingProbed(app, svc.argument, old(svc.errors), svc.errors, ending)
    ensures svc.timeTaken == end - start
  {
    ending := RunProbe(svc, app);
    PingProbeOnlyAddsUnavailable(app, svc.argument, old(svc.errors), svc.errors, ending);
    svc.Conclude(ending, start, end);
    self := svc;
  }
}
