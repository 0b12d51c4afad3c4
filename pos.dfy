/**
 * The print endpoints: a print request stores a PENDING job and hands it to
 * the dispatcher, which makes at most three attempts at sending the tickets
 * and records the outcome on the job.
 */
module Pos {
  import opened Wrappers
  import opened Text
  import opened Types
  import opened Store
  import opened Escpos
  import opened Tickets

  /** The body of POST /pos/print and POST /pos/reprint. */
  datatype PrintRequest = PrintRequest(orderId: Option<string>)

  /** The 201 answer to a print request. */
  datatype PrintAccepted = PrintAccepted(jobId: string, status: JobStatus, createdAt: Time)

  /** The job as GET /pos/print/{jobId} shows it. */
  datatype JobView = JobView(jobId: string, status: JobStatus, createdAt: Time,
                             completedAt: Option<Time>, errorMessage: Option<string>)

  /** The job a print request stores; it expires a day later (in seconds). */
  function NewJob(jobId: string, orderId: string, now: Time): (j: PosJob)
    ensures j.status == JobPending && j.attempts == 0 && j.expiresAt == (now + MsPerDay) / 1000
    ensures j.jobId == jobId && j.orderId == orderId && j.createdAt == now
  {
    PosJob(jobId, orderId, JobPending, now, 0, None, None, None, (now + MsPerDay) / 1000)
  }

  /**
   * POST /pos/print?restaurantId=… The order must exist; the job is keyed by
   * the fresh `jobId` and the order's id. The dispatch that follows is
   * ProcessPrintJob, started without waiting for it.
   */
  method PosPrint(orders: OrderTable, jobs: JobTable, body: Body<PrintRequest>, restaurantId: Option<string>,
                  jobId: string, now: Time)
    returns (reply: Reply<PrintAccepted>)
    modifies jobs
    ensures body.NoBody? ==> reply == Failure(Problem(400, "Request body is required"))
    ensures body.InvalidJson? ==> reply == Failure(Problem(400, "Invalid JSON in request body"))
    ensures body.Json? && !Present(body.value.orderId) ==> reply == Failure(Problem(400, "Order ID is required"))
    ensures body.Json? && Present(body.value.orderId) && !Present(restaurantId) ==>
      reply == Failure(Problem(400, "Restaurant ID is required"))
    ensures body.Json? && Present(body.value.orderId) && Present(restaurantId)
            && OrderKey(body.value.orderId.value, restaurantId.value) !in orders.rows ==>
      reply == Failure(Problem(404, "Order not found"))
    ensures reply.Answer? <==>
      body.Json? && Present(body.value.orderId) && Present(restaurantId)
      && OrderKey(body.value.orderId.value, restaurantId.value) in orders.rows
    ensures reply.Answer? ==>
      reply == Answer(201, PrintAccepted(jobId, JobPending, now))
      && jobs.rows == old(jobs.rows)[JobKey(jobId, body.value.orderId.value) := NewJob(jobId, body.value.orderId.value, now)]
    ensures reply.Failure? ==> jobs.rows == old(jobs.rows)
  {
    if body.NoBody? {
      return Failure(Problem(400, "Request body is required"));
    }
    if body.InvalidJson? {
      return Failure(Problem(400, "Invalid JSON in request body"));
    }
    var req := body.value;
    if !Present(req.orderId) {
      return Failure(Problem(400, "Order ID is required"));
    }
    if !Present(restaurantId) {
      return Failure(Problem(400, "Restaurant ID is required"));
    }
    var order := orders.Get(OrderKey(req.orderId.value, restaurantId.value));
    if order.None? {
      return Failure(Problem(404, "Order not found"));
    }
    var job := NewJob(jobId, req.orderId.value, now);
    jobs.Put(JobKey(jobId, req.orderId.value), job);
    return Answer(201, PrintAccepted(jobId, JobPending, now));
  }

  /** GET /pos/print/{jobId}?orderId=… */
  function GetPosPrint(jobs: JobTable, jobId: Option<string>, orderId: Option<string>): (r: Reply<JobView>)
    reads jobs
    ensures !Present(jobId) ==> r == Failure(Problem(400, "Job ID is required"))
    ensures Present(jobId) && !Present(orderId) ==> r == Failure(Problem(400, "Order ID is required"))
    ensures r.Answer? <==> Present(jobId) && Present(orderId) && JobKey(jobId.value, orderId.value) in jobs.rows
    ensures r.Answer? ==>
      var j := jobs.rows[JobKey(jobId.value, orderId.value)];
      r == Answer(200, JobView(j.jobId, j.status, j.createdAt, j.completedAt, j.errorMessage))
    ensures Present(jobId) && Present(orderId) && r.Failure? ==> r.problem == Problem(404, "Print job not found")
  {
    if !Present(jobId) then Failure(Problem(400, "Job ID is required"))
    else if !Present(orderId) then Failure(Problem(400, "Order ID is required"))
    else
      match jobs.Get(JobKey(jobId.value, orderId.value))
      case None => Failure(Problem(404, "Print job not found"))
      case Some(j) => Answer(200, JobView(j.jobId, j.status, j.createdAt, j.completedAt, j.errorMessage))
  }

  /**
   * POST /pos/reprint?restaurantId=… After its own checks it is a fresh
   * print request for the same order, under the new `jobId`.
   */
  method PosReprint(orders: OrderTable, jobs: JobTable, body: Body<PrintRequest>, restaurantId: Option<string>,
                    jobId: string, now: Time)
    returns (reply: Reply<PrintAccepted>)
    modifies jobs
    ensures body.NoBody? ==> reply == Failure(Problem(400, "Request body is required"))
    ensures body.InvalidJson? ==> reply == Failure(Problem(400, "Invalid JSON in request body"))
    ensures body.Json? && !Present(body.value.orderId) ==> reply == Failure(Problem(400, "Order ID is required"))
    ensures body.Json? && Present(body.value.orderId) && !Present(restaurantId) ==>
      reply == Failure(Problem(400, "Restaurant ID is required"))
    ensures body.Json? && Present(body.value.orderId) && Present(restaurantId)
            && OrderKey(body.value.orderId.value, restaurantId.value) !in orders.rows ==>
      reply == Failure(Problem(404, "Order not found"))
    ensures reply.Answer? <==>
      body.Json? && Present(body.value.orderId) && Present(restaurantId)
      && OrderKey(body.value.orderId.value, restaurantId.value) in orders.rows
    ensures reply.Answer? ==>
      reply == Answer(201, PrintAccepted(jobId, JobPending, now))
      && jobs.rows == old(jobs.rows)[JobKey(jobId, body.value.orderId.value) := NewJob(jobId, body.value.orderId.value, now)]
    ensures reply.Failure? ==> jobs.rows == old(jobs.rows)
  {
    if body.NoBody? {
      return Failure(Problem(400, "Request body is required"));
    }
    if body.InvalidJson? {
      return Failure(Problem(400, "Invalid JSON in request body"));
    }
    var req := body.value;
    if !Present(req.orderId) {
      return Failure(Problem(400, "Order ID is required"));
    }
    if !Present(restaurantId) {
      return Failure(Problem(400, "Restaurant ID is required"));
    }
    var order := orders.Get(OrderKey(req.orderId.value, restaurantId.value));
    if order.None? {
      return Failure(Problem(404, "Order not found"));
    }
    reply := PosPrint(orders, jobs, Json(PrintRequest(req.orderId)), restaurantId, jobId, now);
  }

  // ----- the dispatcher -----

  const MaxAttempts: int := 3
  /** The wait after a failed attempt k is RetryDelays[k] milliseconds; none after the last. */
  const RetryDelays: seq<int> := [0, 15000, 30000]

  /** What a failing step throws: an Error with its message, or some other value. */
  datatype Thrown = ErrorWith(message: string) | NotAnError

  function ErrorMessage(t: Thrown): string {
    if t.ErrorWith? then t.message else "Unknown error"
  }

  datatype PrintKind = ReceiptTicket | KitchenTicket

  /** One send to the printer: the attempt it belongs to and which ticket. */
  datatype Printout = Printout(attempt: int, kind: PrintKind)

  /**
   * Everything the dispatcher reads from outside: POS_PRINT_TYPE and
   * POS_PRINTER_ENDPOINT, the printer's answer to each send of each
   * attempt, the store's answer to the two job writes of each attempt, the
   * clock at each attempt, and the locale formatting of the tickets.
   */
  datatype PrintEnv = PrintEnv(
    printType: Option<string>,
    endpoint: Option<string>,
    receiptReply: int -> PrinterReply,
    kitchenReply: int -> PrinterReply,
    markAttemptFault: int -> Option<Thrown>,
    markSuccessFault: int -> Option<Thrown>,
    clock: int -> Time,
    fmtDate: Time -> string,
    fmtMoney: Money -> string)

  function PrintType(env: PrintEnv): string {
    OrElse(env.printType, "kitchen")
  }

  predicate SendsReceipt(env: PrintEnv) {
    PrintType(env) == "receipt" || PrintType(env) == "both"
  }

  predicate SendsKitchen(env: PrintEnv) {
    PrintType(env) == "kitchen" || PrintType(env) == "both"
  }

  function ReceiptError(env: PrintEnv, k: int): Option<string> {
    SendToPosPrinter(env.endpoint, env.receiptReply(k))
  }

  function KitchenError(env: PrintEnv, k: int): Option<string> {
    SendToPosPrinter(env.endpoint, env.kitchenReply(k))
  }

  /** What attempt k throws, if anything: the attempts write, a send, or the SUCCESS write. */
  function AttemptError(env: PrintEnv, k: int): Option<Thrown> {
    if env.markAttemptFault(k).Some? then env.markAttemptFault(k)
    else if SendsReceipt(env) && ReceiptError(env, k).Some? then Some(ErrorWith(ReceiptError(env, k).value))
    else if SendsKitchen(env) && KitchenError(env, k).Some? then Some(ErrorWith(KitchenError(env, k).value))
    else env.markSuccessFault(k)
  }

  /** The tickets attempt k sends, receipt first, up to the first send that fails. */
  function AttemptSends(env: PrintEnv, k: int): seq<Printout> {
    if env.markAttemptFault(k).Some? then []
    else
      var receipt := if SendsReceipt(env) then [Printout(k, ReceiptTicket)] else [];
      if SendsReceipt(env) && ReceiptError(env, k).Some? then receipt
      else receipt + (if SendsKitchen(env) then [Printout(k, KitchenTicket)] else [])
  }

  function MarkAttempt(k: int, t: Time): PosJob -> PosJob {
    (j: PosJob) => j.(attempts := k, lastAttempt := Some(t))
  }

  function MarkSuccess(t: Time): PosJob -> PosJob {
    (j: PosJob) => j.(status := JobSuccess, completedAt := Some(t))
  }

  function MarkFailed(message: string): PosJob -> PosJob {
    (j: PosJob) => j.(status := JobFailed, errorMessage := Some(message))
  }

  /** The job row after attempt k, the FAILED write of a failing last attempt included. */
  function AfterAttempt(env: PrintEnv, j: PosJob, k: int): PosJob {
    var marked := if env.markAttemptFault(k).Some? then j else MarkAttempt(k, env.clock(k))(j);
    match AttemptError(env, k)
    case None => MarkSuccess(env.clock(k))(marked)
    case Some(e) => if k == MaxAttempts then MarkFailed(ErrorMessage(e))(marked) else marked
  }

  /** The job row after attempts 1..n. */
  function RowAfter(env: PrintEnv, j: PosJob, n: nat): PosJob {
    if n == 0 then j else AfterAttempt(env, RowAfter(env, j, n - 1), n)
  }

  /** The tickets sent in attempts 1..n. */
  function SendsUpTo(env: PrintEnv, n: nat): seq<Printout> {
    if n == 0 then [] else SendsUpTo(env, n - 1) + AttemptSends(env, n)
  }

  /** The attempt the dispatcher stops after: the first that throws nothing, else the last. */
  function LastAttempt(env: PrintEnv): (n: nat)
    ensures 1 <= n <= MaxAttempts
    ensures n > 1 ==> AttemptError(env, 1).Some?
    ensures n > 2 ==> AttemptError(env, 2).Some?
    ensures n < MaxAttempts ==> AttemptError(env, n).None?
  {
    if AttemptError(env, 1).None? then 1
    else if AttemptError(env, 2).None? then 2
    else 3
  }

  function TicketError(env: PrintEnv, kind: PrintKind, k: int): Option<string> {
    if kind == ReceiptTicket then ReceiptError(env, k) else KitchenError(env, k)
  }

  /**
   * One send. The source formats the ticket (the bytes Tickets.FormatOrderReceipt
   * or Tickets.FormatKitchenTicket produce for the order) and POSTs them to the
   * printer; the bytes do not decide the outcome, so the model keeps only the
   * printer's answer for this ticket and attempt (`receiptReply` /
   * `kitchenReply`), which stands for that POST.
   */
  method PrintTicket(env: PrintEnv, kind: PrintKind, k: int) returns (failure: Option<string>)
    ensures failure == TicketError(env, kind, k)
  {
    if kind == ReceiptTicket {
      failure := SendToPosPrinter(env.endpoint, env.receiptReply(k));
    } else {
      failure := SendToPosPrinter(env.endpoint, env.kitchenReply(k));
    }
  }

  /** The sends of attempt k: the receipt first when asked for, then the kitchen ticket. */
  method SendTickets(env: PrintEnv, k: int)
    returns (failure: Option<string>, sent: seq<Printout>)
    requires env.markAttemptFault(k).None?
    ensures sent == AttemptSends(env, k)
    ensures failure.None? <==> !(SendsReceipt(env) && ReceiptError(env, k).Some?) && !(SendsKitchen(env) && KitchenError(env, k).Some?)
    ensures failure.Some? ==> AttemptError(env, k) == Some(ErrorWith(failure.value))
  {
    sent := [];
    var printType := OrElse(env.printType, "kitchen");
    if printType == "receipt" || printType == "both" {
      sent := [Printout(k, ReceiptTicket)];
      failure := PrintTicket(env, ReceiptTicket, k);
      if failure.Some? {
        return;
      }
    }
    if printType == "kitchen" || printType == "both" {
      sent := sent + [Printout(k, KitchenTicket)];
      failure := PrintTicket(env, KitchenTicket, k);
      if failure.Some? {
        return;
      }
    }
    failure := None;
  }

  /** The try block of attempt k: record the attempt, send, mark SUCCESS. */
  method RunAttempt(jobs: JobTable, key: JobKey, env: PrintEnv, k: int)
    returns (err: Option<Thrown>, sent: seq<Printout>)
    modifies jobs
    ensures err == AttemptError(env, k)
    ensures sent == AttemptSends(env, k)
    ensures key in old(jobs.rows) ==>
      jobs.rows == old(jobs.rows)[key := (if err.None? then AfterAttempt(env, old(jobs.rows)[key], k)
                                          else if env.markAttemptFault(k).Some? then old(jobs.rows)[key]
                                          else MarkAttempt(k, env.clock(k))(old(jobs.rows)[key]))]
    ensures key !in old(jobs.rows) ==> jobs.rows == old(jobs.rows)
  {
    if env.markAttemptFault(k).Some? {
      return env.markAttemptFault(k), [];
    }
    jobs.Update(key, MarkAttempt(k, env.clock(k)));
    var failure;
    failure, sent := SendTickets(env, k);
    if failure.Some? {
      return Some(ErrorWith(failure.value)), sent;
    }
    if env.markSuccessFault(k).Some? {
      return env.markSuccessFault(k), sent;
    }
    jobs.Update(key, MarkSuccess(env.clock(k)));
    return None, sent;
  }

  /** The job table after attempts 1..n on the row `key`, when there is one. */
  ghost function Rows(start: map<JobKey, PosJob>, key: JobKey, env: PrintEnv, n: nat): map<JobKey, PosJob> {
    if key in start then start[key := RowAfter(env, start[key], n)] else start
  }

  /** The try block and the catch block's FAILED write of attempt k (the wait before a retry is the caller's). */
  method Attempt(jobs: JobTable, key: JobKey, env: PrintEnv, k: int)
    returns (err: Option<Thrown>, sent: seq<Printout>)
    modifies jobs
    ensures err == AttemptError(env, k)
    ensures sent == AttemptSends(env, k)
    ensures key in old(jobs.rows) ==> jobs.rows == old(jobs.rows)[key := AfterAttempt(env, old(jobs.rows)[key], k)]
    ensures key !in old(jobs.rows) ==> jobs.rows == old(jobs.rows)
  {
    err, sent := RunAttempt(jobs, key, env, k);
    if err.Some? && k == MaxAttempts {
      jobs.Update(key, MarkFailed(ErrorMessage(err.value)));
    }
  }

  /** The loop stops after attempt n when the attempts before it threw and n did not, or n is the last. */
  lemma StopsAt(env: PrintEnv, n: int)
    requires 1 <= n <= MaxAttempts
    requires n > 1 ==> AttemptError(env, 1).Some?
    requires n > 2 ==> AttemptError(env, 2).Some?
    requires n < MaxAttempts ==> AttemptError(env, n).None?
    ensures LastAttempt(env) == n
  {
  }

  /** Replacing a row twice is replacing it once with the last value. */
  lemma RowStep(start: map<JobKey, PosJob>, key: JobKey, before: PosJob, after: PosJob)
    ensures start[key := before][key := after] == start[key := after]
  {
  }

  /**
   * One pass of the retry loop: attempt `attempt`, then, when it threw and
   * another attempt follows, the wait RetryDelays[attempt] (when not zero).
   */
  method Round(jobs: JobTable, key: JobKey, env: PrintEnv, attempt: nat, ghost start: map<JobKey, PosJob>)
    returns (stop: bool, more: seq<Printout>, wait: seq<int>)
    requires 1 <= attempt <= MaxAttempts
    requires attempt > 1 ==> AttemptError(env, 1).Some?
    requires attempt > 2 ==> AttemptError(env, 2).Some?
    requires jobs.rows == Rows(start, key, env, attempt - 1)
    modifies jobs
    ensures jobs.rows == Rows(start, key, env, attempt)
    ensures more == AttemptSends(env, attempt)
    ensures stop <==> AttemptError(env, attempt).None?
    ensures stop ==> LastAttempt(env) == attempt
    ensures wait == if !stop && attempt < MaxAttempts && RetryDelays[attempt] != 0 then [RetryDelays[attempt]] else []
  {
    var err;
    err, more := Attempt(jobs, key, env, attempt);
    if key in start {
      RowStep(start, key, RowAfter(env, start[key], attempt - 1), RowAfter(env, start[key], attempt));
    }
    if err.None? {
      StopsAt(env, attempt);
      return true, more, [];
    }
    wait := [];
    if attempt < MaxAttempts && RetryDelays[attempt] != 0 {
      wait := [RetryDelays[attempt]];
    }
    stop := false;
  }

  /**
   * processPrintJob: up to three attempts, each recording its number on the
   * job before sending; the first attempt that completes marks the job
   * SUCCESS, a failing last attempt marks it FAILED. Returns the tickets sent
   * and the waits taken between attempts.
   */
  method ProcessPrintJob(jobs: JobTable, jobId: string, order: OrderRecord, env: PrintEnv)
    returns (sent: seq<Printout>, delays: seq<int>)
    modifies jobs
    ensures var key := JobKey(jobId, order.orderId);
      jobs.rows == if key in old(jobs.rows) then old(jobs.rows)[key := RowAfter(env, old(jobs.rows)[key], LastAttempt(env))]
                   else old(jobs.rows)
    ensures sent == SendsUpTo(env, LastAttempt(env))
    ensures delays == RetryDelays[1..LastAttempt(env)]
  {
    var key := JobKey(jobId, order.orderId);
    ghost var start := jobs.rows;
    sent, delays := [], [];
    var attempt := 1;
    while attempt <= MaxAttempts
      invariant 1 <= attempt <= MaxAttempts + 1
      invariant attempt > 1 ==> AttemptError(env, 1).Some?
      invariant attempt > 2 ==> AttemptError(env, 2).Some?
      invariant jobs.rows == Rows(start, key, env, attempt - 1)
      invariant sent == SendsUpTo(env, attempt - 1)
      invariant delays == RetryDelays[1..if attempt <= MaxAttempts then attempt else MaxAttempts]
      decreases MaxAttempts + 1 - attempt
    {
      var stop, more, wait := Round(jobs, key, env, attempt, start);
      assert SendsUpTo(env, attempt) == sent + more;
      sent, delays := sent + more, delays + wait;
      if stop {
        return;
      }
      attempt := attempt + 1;
    }
    StopsAt(env, MaxAttempts);
  }

  /**
   * A print request followed by its dispatch, run to its end with nothing
   * else touching the job: the answer is PosPrint's, and an accepted job ends
   * as the dispatcher leaves it, never PENDING.
   */
  method PrintAndDispatch(orders: OrderTable, jobs: JobTable, body: Body<PrintRequest>, restaurantId: Option<string>,
                          jobId: string, now: Time, env: PrintEnv)
    returns (reply: Reply<PrintAccepted>, sent: seq<Printout>, delays: seq<int>)
    requires orders.Keyed()
    modifies jobs
    ensures reply.Answer? <==>
      body.Json? && Present(body.value.orderId) && Present(restaurantId)
      && OrderKey(body.value.orderId.value, restaurantId.value) in orders.rows
    ensures reply.Answer? ==>
      var key := JobKey(jobId, body.value.orderId.value);
      var order := orders.rows[OrderKey(body.value.orderId.value, restaurantId.value)];
      reply == Answer(201, PrintAccepted(jobId, JobPending, now))
      && jobs.rows == old(jobs.rows)[key := RowAfter(env, NewJob(jobId, body.value.orderId.value, now), LastAttempt(env))]
      && jobs.rows[key].status != JobPending
      && sent == SendsUpTo(env, LastAttempt(env))
    ensures reply.Failure? ==> jobs.rows == old(jobs.rows) && sent == []
  {
    reply := PosPrint(orders, jobs, body, restaurantId, jobId, now);
    sent, delays := [], [];
    if reply.Answer? {
      var id := body.value.orderId.value;
      var order := orders.Get(OrderKey(id, restaurantId.value)).value;
      assert order.orderId == id by {
        assert KeyOf(orders.rows[OrderKey(id, restaurantId.value)]) == OrderKey(id, restaurantId.value);
      }
      sent, delays := ProcessPrintJob(jobs, jobId, order, env);
      RowStep(old(jobs.rows), JobKey(jobId, id), NewJob(jobId, id, now),
              RowAfter(env, NewJob(jobId, id, now), LastAttempt(env)));
      DispatchSettles(env, NewJob(jobId, id, now));
    }
  }

  // ----- properties of the dispatcher -----

  /** A dispatched job never goes back to PENDING: it ends SUCCESS or FAILED. */
  lemma DispatchSettles(env: PrintEnv, j: PosJob)
    ensures var r := RowAfter(env, j, LastAttempt(env));
      r.status != JobPending
      && (r.status == JobSuccess <==> exists k :: 1 <= k <= MaxAttempts && AttemptError(env, k).None?)
  {
    var n := LastAttempt(env);
    var prev := RowAfter(env, j, n - 1);
    assert RowAfter(env, j, n) == AfterAttempt(env, prev, n);
    if AttemptError(env, n).Some? {
      assert n == 3;
    }
  }

  /** A FAILED job carries the message of what the last attempt threw. */
  lemma FailedCarriesMessage(env: PrintEnv, j: PosJob)
    requires RowAfter(env, j, LastAttempt(env)).status == JobFailed
    ensures LastAttempt(env) == MaxAttempts && AttemptError(env, MaxAttempts).Some?
    ensures RowAfter(env, j, LastAttempt(env)).errorMessage == Some(ErrorMessage(AttemptError(env, MaxAttempts).value))
  {
    var n := LastAttempt(env);
    assert RowAfter(env, j, n) == AfterAttempt(env, RowAfter(env, j, n - 1), n);
  }

  /** A SUCCESS job records the attempt that succeeded, and when. */
  lemma SuccessRecordsAttempt(env: PrintEnv, j: PosJob)
    requires RowAfter(env, j, LastAttempt(env)).status == JobSuccess
    ensures var n := LastAttempt(env); var r := RowAfter(env, j, n);
      AttemptError(env, n).None? && r.attempts == n && r.lastAttempt == Some(env.clock(n))
      && r.completedAt == Some(env.clock(n))
  {
    var n := LastAttempt(env);
    assert RowAfter(env, j, n) == AfterAttempt(env, RowAfter(env, j, n - 1), n);
  }

  /** The attempts counter only ever holds its start value or an attempt number 1..3. */
  lemma {:induction false} AttemptsBounded(env: PrintEnv, j: PosJob, n: nat)
    requires n <= MaxAttempts
    ensures var a := RowAfter(env, j, n).attempts; a == j.attempts || 1 <= a <= n
  {
    if n > 0 {
      AttemptsBounded(env, j, n - 1);
    }
  }

  /** Within an attempt the receipt goes out before the kitchen ticket, each at most once. */
  lemma AttemptSendOrder(env: PrintEnv, k: int)
    ensures var s := AttemptSends(env, k);
      |s| <= 2
      && (forall i :: 0 <= i < |s| ==> s[i].attempt == k)
      && (|s| == 2 ==> s[0].kind == ReceiptTicket && s[1].kind == KitchenTicket)
      && (forall i :: 0 <= i < |s| && s[i].kind == ReceiptTicket ==> i == 0 && SendsReceipt(env))
      && (forall i :: 0 <= i < |s| && s[i].kind == KitchenTicket ==> SendsKitchen(env))
  {
  }

  /** Every send of attempts 1..n belongs to one of them. */
  lemma {:induction false} SendsWithinAttempts(env: PrintEnv, n: nat)
    ensures forall i :: 0 <= i < |SendsUpTo(env, n)| ==> 1 <= SendsUpTo(env, n)[i].attempt <= n
  {
    if n > 0 {
      SendsWithinAttempts(env, n - 1);
      var prev: seq<Printout> := SendsUpTo(env, n - 1);
      var s: seq<Printout> := AttemptSends(env, n);
      AttemptSendOrder(env, n);
      forall i | 0 <= i < |prev + s| ensures 1 <= (prev + s)[i].attempt <= n {
        if i >= |prev| {
          assert (prev + s)[i] == s[i - |prev|];
        }
      }
    }
  }

  /** The only waits are 15 s after a failed first attempt and 30 s after a failed second one. */
  lemma RetryWaits(env: PrintEnv)
    ensures AttemptError(env, 1).None? ==> RetryDelays[1..LastAttempt(env)] == []
    ensures AttemptError(env, 1).Some? && AttemptError(env, 2).None? ==> RetryDelays[1..LastAttempt(env)] == [15000]
    ensures AttemptError(env, 1).Some? && AttemptError(env, 2).Some? ==> RetryDelays[1..LastAttempt(env)] == [15000, 30000]
  {
  }
}
