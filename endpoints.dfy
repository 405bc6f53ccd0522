/** The scan lifecycle of the web API. Two module-level dictionaries hold
    the scans: the active ones (starting, cancelled or failed) and the
    completed ones with their results. The handlers insert into them, update
    fields of an entry in place and move an entry from one to the other.

    A dictionary is modelled as a map plus the order in which its keys were
    inserted, since listing follows that order. Every handler runs to
    completion without yielding, so each is one atomic transition here; the
    clock reading, the fresh scan id and what the scanner returned or raised
    are parameters. */
module WebEndpoints {
  import opened Wrappers
  import opened Seqs
  import opened ApiModels
  import BatchScanning

  /** A clock reading (datetime.now()). */
  type Instant = nat

  /** The result dictionary a scanner returns, not interpreted here. */
  type ScanData = map<string, string>

  datatype ActiveScan = ActiveScan(
    status: string, startedAt: Instant, progress: int, target: string,
    options: Option<ScanOptions>, message: Option<string>)

  datatype CompletedScan = CompletedScan(
    target: string, startedAt: Instant, completedAt: Instant, results: ScanData)

  datatype HttpError = HttpError(code: nat, detail: string)

  datatype ScanResponse = ScanResponse(scanId: string, status: string, message: string)

  datatype StatusView = StatusView(
    scanId: string, status: string, progress: int, startedAt: Instant,
    completedAt: Option<Instant>, target: string, message: string)

  datatype ScanRow = ScanRow(
    scanId: string, status: string, target: string, startedAt: Instant,
    completedAt: Option<Instant>, progress: int)

  /** Both dictionaries with their insertion orders. */
  datatype Store = Store(
    active: map<string, ActiveScan>, activeOrder: seq<string>,
    completed: map<string, CompletedScan>, completedOrder: seq<string>)

  const EmptyStore := Store(map[], [], map[], [])

  /** What every reachable store satisfies: the orders enumerate the keys,
      no id is both active and completed, and an active entry is starting,
      cancelled or failed, always at progress 0. */
  predicate Consistent(s: Store)
  {
    Enumerates(s.activeOrder, s.active) && Enumerates(s.completedOrder, s.completed)
    && (forall id | id in s.active :: id !in s.completed)
    && (forall id | id in s.active ::
          s.active[id].status in ["starting", "cancelled", "failed"] && s.active[id].progress == 0)
  }

  // ---------------------------------------------------------------------
  // Queries
  // ---------------------------------------------------------------------

  /** get_scan_status: 404 for an id in neither dictionary; an active id
      reports its stored status, progress and message ('' when none was
      set); a completed id reports 'completed' at 100 with its times. */
  function Status(s: Store, id: string): (r: Result<StatusView, HttpError>)
    ensures r.Failure? <==> id !in s.active && id !in s.completed
    ensures r.Failure? ==> r.error == HttpError(404, "Scan not found")
    ensures r.Success? ==> r.value.scanId == id
    ensures id in s.active ==>
      r.value.status == s.active[id].status && r.value.progress == s.active[id].progress
      && r.value.target == s.active[id].target && r.value.completedAt.None?
      && r.value.message == s.active[id].message.UnwrapOr("")
    ensures id !in s.active && id in s.completed ==>
      r.value.status == "completed" && r.value.progress == 100
      && r.value.completedAt == Some(s.completed[id].completedAt)
      && r.value.target == s.completed[id].target
  {
    if id !in s.active && id !in s.completed then Failure(HttpError(404, "Scan not found"))
    else if id in s.active then
      var e := s.active[id];
      Success(StatusView(id, e.status, e.progress, e.startedAt, None, e.target, e.message.UnwrapOr("")))
    else
      var c := s.completed[id];
      Success(StatusView(id, "completed", 100, c.startedAt, Some(c.completedAt), c.target,
                         "Scan completed successfully"))
  }

  /** get_scan_results: the stored results of a completed id, 400 while
      the id is still active, 404 otherwise. */
  function Results(s: Store, id: string): (r: Result<ScanData, HttpError>)
    ensures r.Success? <==> id in s.completed
    ensures r.Success? ==> r.value == s.completed[id].results
    ensures r.Failure? ==>
      r.error == (if id in s.active then HttpError(400, "Scan still in progress")
                  else HttpError(404, "Scan not found"))
  {
    if id !in s.completed then
      if id in s.active then Failure(HttpError(400, "Scan still in progress"))
      else Failure(HttpError(404, "Scan not found"))
    else Success(s.completed[id].results)
  }

  /** In a consistent store the two queries agree: results are available
      exactly when the status says 'completed', the results query says
      "still in progress" exactly when the status is any other, and both
      say 404 for the same ids. */
  lemma StatusResultsAgree(s: Store, id: string)
    requires Consistent(s)
    ensures Results(s, id).Success? <==> Status(s, id).Success? && Status(s, id).value.status == "completed"
    ensures Results(s, id).Failure? && Results(s, id).error.code == 400 <==>
      Status(s, id).Success? && Status(s, id).value.status != "completed"
    ensures Results(s, id).Failure? && Results(s, id).error.code == 404 <==> Status(s, id).Failure?
  {
    if id in s.active {
      assert s.active[id].status in ["starting", "cancelled", "failed"];
    }
  }

  /** Observable progress is 0 or 100: the intermediate values written
      while a scan executes are overwritten before the handler returns. */
  lemma ObservableProgress(s: Store, id: string)
    requires Consistent(s)
    requires Status(s, id).Success?
    ensures Status(s, id).value.progress in {0, 100}
    ensures ProgressInRange(Status(s, id).value.progress)
  {
  }

  // ---------------------------------------------------------------------
  // Transitions
  // ---------------------------------------------------------------------

  /** start_scan: one new active entry, 'starting' at progress 0. */
  function Start(s: Store, id: string, request: ScanRequest, now: Instant): (t: Store)
    ensures t.active.Keys == s.active.Keys + {id}
    ensures t.active[id].status == "starting" && t.active[id].progress == 0 && t.active[id].target == request.target
    ensures forall other | other in s.active && other != id :: t.active[other] == s.active[other]
    ensures t.completed == s.completed && t.completedOrder == s.completedOrder
  {
    s.(active := s.active[id := ActiveScan("starting", now, 0, request.target, request.options, None)],
       activeOrder := InsertKey(s.activeOrder, id))
  }

  /** A fresh id (a new UUID) becomes active, and nothing else changes. */
  lemma StartEffect(s: Store, id: string, request: ScanRequest, now: Instant)
    requires Consistent(s)
    requires id !in s.active && id !in s.completed
    ensures var t := Start(s, id, request, now);
      Consistent(t)
      && t.active.Keys == s.active.Keys + {id} && t.completed == s.completed
      && (forall other | other != id :: Status(t, other) == Status(s, other))
      && Status(t, id) == Success(StatusView(id, "starting", 0, now, None, request.target, ""))
      && Results(t, id) == Failure(HttpError(400, "Scan still in progress"))
  {
    InsertKeyEnumerates(s.activeOrder, s.active, id,
                     ActiveScan("starting", now, 0, request.target, request.options, None));
  }

  /** cancel_scan's answer: 404 unless the id is active. */
  function CancelResponse(s: Store, id: string): Result<string, HttpError>
  {
    if id !in s.active then Failure(HttpError(404, "Active scan not found"))
    else Success("Scan cancelled successfully")
  }

  /** cancel_scan's effect: the entry is marked, not removed. */
  function Cancelled(s: Store, id: string): (t: Store)
    ensures t.active.Keys == s.active.Keys && t.completed == s.completed
    ensures t.activeOrder == s.activeOrder && t.completedOrder == s.completedOrder
    ensures id in s.active ==> t.active[id].status == "cancelled" && t.active[id].progress == s.active[id].progress
    ensures forall other | other in s.active && other != id :: t.active[other] == s.active[other]
  {
    if id !in s.active then s
    else s.(active := s.active[id := s.active[id].(status := "cancelled",
                                                  message := Some("Scan cancelled by user"))])
  }

  /** Cancelling an active scan leaves it active, reporting 'cancelled'
      with the cancellation message; cancelling any other id is a 404 that
      changes nothing. */
  lemma CancelEffect(s: Store, id: string)
    requires Consistent(s)
    ensures Consistent(Cancelled(s, id))
    ensures CancelResponse(s, id).Failure? <==> id !in s.active
    ensures id !in s.active ==> Cancelled(s, id) == s && CancelResponse(s, id).error.code == 404
    ensures id in s.active ==>
      var t := Cancelled(s, id);
      id in t.active && t.active.Keys == s.active.Keys && t.completed == s.completed
      && Status(t, id).value.status == "cancelled"
      && Status(t, id).value.message == "Scan cancelled by user"
      && Results(t, id) == Failure(HttpError(400, "Scan still in progress"))
  {
    if id in s.active {
      var t := Cancelled(s, id);
      assert t.active.Keys == s.active.Keys;
      assert forall x | x in t.active :: x in s.active;
    }
  }

  /** The failure handler of execute_scan: status 'failed', the error's
      text as message, progress back to 0. */
  function Failed(s: Store, id: string, error: string): Store
    requires id in s.active
  {
    s.(active := s.active[id := s.active[id].(status := "failed", message := Some(error), progress := 0)])
  }

  /** execute_scan. An id that is no longer active raises on the first
      write and the handler finds nothing to mark. An AI scan fails at once,
      because SmartScanner takes no configuration. Otherwise the scanner's
      outcome decides: results move the scan to the completed dictionary
      with the request's target and the entry's start time; an exception
      marks the entry failed. A 'cancelled' status is never consulted. */
  function Execute(s: Store, id: string, request: ScanRequest,
                   outcome: Result<ScanData, string>, now: Instant): (t: Store)
    ensures id !in s.active ==> t == s
    ensures t.active.Keys <= s.active.Keys && s.completed.Keys <= t.completed.Keys
    ensures t.active.Keys + t.completed.Keys == s.active.Keys + s.completed.Keys
    ensures forall other | other in s.active && other != id :: other in t.active && t.active[other] == s.active[other]
  {
    if id !in s.active then s
    else if request.aiScan == Some(true) then Failed(s, id, BatchScanning.SmartScannerTypeError)
    else match outcome
      case Failure(e) => Failed(s, id, e)
      case Success(results) =>
        Store(s.active - {id}, RemoveKey(s.activeOrder, id),
              s.completed[id := CompletedScan(request.target, s.active[id].startedAt, now, results)],
              InsertKey(s.completedOrder, id))
  }

  lemma FailedConsistent(s: Store, id: string, error: string)
    requires Consistent(s) && id in s.active
    ensures Consistent(Failed(s, id, error))
  {
    var t := Failed(s, id, error);
    assert t.active.Keys == s.active.Keys;
    assert forall x | x in t.active :: x in s.active;
  }

  lemma ExecuteConsistent(s: Store, id: string, request: ScanRequest,
                          outcome: Result<ScanData, string>, now: Instant)
    requires Consistent(s)
    ensures Consistent(Execute(s, id, request, outcome, now))
  {
    if id in s.active {
      if request.aiScan == Some(true) || outcome.Failure? {
        FailedConsistent(s, id, if request.aiScan == Some(true) then BatchScanning.SmartScannerTypeError
                                else outcome.error);
      } else {
        RemoveKeyEnumerates(s.activeOrder, s.active, id);
        InsertKeyEnumerates(s.completedOrder, s.completed, id,
                         CompletedScan(request.target, s.active[id].startedAt, now, outcome.value));
      }
    }
  }

  /** Writing a status and a progress into an active entry does not change
      what execute_scan leaves behind. */
  lemma ExecuteIgnoresProgress(s: Store, id: string, status: string, progress: int, request: ScanRequest,
                               outcome: Result<ScanData, string>, now: Instant)
    requires id in s.active
    ensures Execute(s.(active := s.active[id := s.active[id].(status := status, progress := progress)]),
                    id, request, outcome, now)
         == Execute(s, id, request, outcome, now)
  {
    var s1 := s.(active := s.active[id := s.active[id].(status := status, progress := progress)]);
    assert s1.active - {id} == s.active - {id};
    forall e: string ensures Failed(s1, id, e) == Failed(s, id, e) {
      assert s1.active[id].(status := "failed", message := Some(e), progress := 0)
          == s.active[id].(status := "failed", message := Some(e), progress := 0);
    }
  }

  /** A successful scan of an active id ends up completed: its status is
      'completed' at 100 with the request's target and the entry's start
      time, and its results are exactly what the scanner returned. */
  lemma ExecuteSucceeds(s: Store, id: string, request: ScanRequest, results: ScanData, now: Instant)
    requires Consistent(s) && id in s.active
    requires request.aiScan != Some(true)
    ensures var t := Execute(s, id, request, Success(results), now);
      id !in t.active && id in t.completed
      && Results(t, id) == Success(results)
      && Status(t, id) == Success(StatusView(id, "completed", 100, s.active[id].startedAt, Some(now),
                                             request.target, "Scan completed successfully"))
  {
  }

  /** A failing scan stays active, reporting 'failed' at progress 0 with
      the error's text; its results stay unavailable with a 400. */
  lemma ExecuteFails(s: Store, id: string, request: ScanRequest,
                     outcome: Result<ScanData, string>, now: Instant)
    requires Consistent(s) && id in s.active
    requires request.aiScan == Some(true) || outcome.Failure?
    ensures var t := Execute(s, id, request, outcome, now);
      var error := if request.aiScan == Some(true) then BatchScanning.SmartScannerTypeError
                   else outcome.error;
      id in t.active && t.completed == s.completed
      && Status(t, id) == Success(StatusView(id, "failed", 0, s.active[id].startedAt, None,
                                             s.active[id].target, error))
      && Results(t, id) == Failure(HttpError(400, "Scan still in progress"))
  {
  }

  /** Cancellation does not stop a scan: a cancelled scan whose scanner
      later returns is completed with those results all the same. */
  lemma CancelDoesNotStopScan(s: Store, id: string, request: ScanRequest, results: ScanData, now: Instant)
    requires Consistent(s) && id in s.active
    requires request.aiScan != Some(true)
    ensures var t := Execute(Cancelled(s, id), id, request, Success(results), now);
      Results(t, id) == Success(results) && Status(t, id).value.status == "completed"
  {
    CancelEffect(s, id);
    ExecuteSucceeds(Cancelled(s, id), id, request, results, now);
  }

  // ---------------------------------------------------------------------
  // Listing
  // ---------------------------------------------------------------------

  function ActiveRow(id: string, e: ActiveScan): ScanRow
  {
    ScanRow(id, e.status, e.target, e.startedAt, None, e.progress)
  }

  function CompletedRow(id: string, c: CompletedScan): ScanRow
  {
    ScanRow(id, "completed", c.target, c.startedAt, Some(c.completedAt), 100)
  }

  function ActiveRows(order: seq<string>, active: map<string, ActiveScan>): seq<ScanRow>
    requires forall i | 0 <= i < |order| :: order[i] in active
    decreases |order|
  {
    if order == [] then []
    else ActiveRows(order[..|order| - 1], active) + [ActiveRow(order[|order| - 1], active[order[|order| - 1]])]
  }

  function CompletedRows(order: seq<string>, completed: map<string, CompletedScan>): seq<ScanRow>
    requires forall i | 0 <= i < |order| :: order[i] in completed
    decreases |order|
  {
    if order == [] then []
    else CompletedRows(order[..|order| - 1], completed)
         + [CompletedRow(order[|order| - 1], completed[order[|order| - 1]])]
  }

  /** list_scans: the active scans in insertion order, then the completed
      ones. */
  function Rows(s: Store): (rows: seq<ScanRow>)
    requires Consistent(s)
    ensures |rows| == |s.activeOrder| + |s.completedOrder|
  {
    ActiveRowsAt(s.activeOrder, s.active);
    CompletedRowsAt(s.completedOrder, s.completed);
    ActiveRows(s.activeOrder, s.active) + CompletedRows(s.completedOrder, s.completed)
  }

  lemma {:induction false} ActiveRowsAt(order: seq<string>, active: map<string, ActiveScan>)
    requires forall i | 0 <= i < |order| :: order[i] in active
    ensures |ActiveRows(order, active)| == |order|
    ensures forall i | 0 <= i < |order| :: ActiveRows(order, active)[i] == ActiveRow(order[i], active[order[i]])
    decreases |order|
  {
    if order != [] {
      ActiveRowsAt(order[..|order| - 1], active);
    }
  }

  lemma {:induction false} CompletedRowsAt(order: seq<string>, completed: map<string, CompletedScan>)
    requires forall i | 0 <= i < |order| :: order[i] in completed
    ensures |CompletedRows(order, completed)| == |order|
    ensures forall i | 0 <= i < |order| ::
      CompletedRows(order, completed)[i] == CompletedRow(order[i], completed[order[i]])
    decreases |order|
  {
    if order != [] {
      CompletedRowsAt(order[..|order| - 1], completed);
    }
  }

  /** One row per scan: the first rows are the active scans in order with
      their stored status and progress, the rest the completed scans in
      order at 'completed' and 100; since each order lists its keys once,
      every scan appears exactly once. */
  lemma RowsListEveryScan(s: Store)
    requires Consistent(s)
    ensures var rows := Rows(s);
      var n := |s.activeOrder|;
      |rows| == n + |s.completedOrder|
      && (forall i | 0 <= i < n ::
            rows[i].scanId == s.activeOrder[i]
            && rows[i].status == s.active[s.activeOrder[i]].status
            && rows[i].progress == s.active[s.activeOrder[i]].progress)
      && (forall i | n <= i < |rows| ::
            rows[i].scanId == s.completedOrder[i - n]
            && rows[i].status == "completed" && rows[i].progress == 100)
  {
    ActiveRowsAt(s.activeOrder, s.active);
    CompletedRowsAt(s.completedOrder, s.completed);
  }

  // ---------------------------------------------------------------------
  // The dictionaries and their handlers
  // ---------------------------------------------------------------------

  class ScanRegistry {
    var active: map<string, ActiveScan>
    var activeOrder: seq<string>
    var completed: map<string, CompletedScan>
    var completedOrder: seq<string>

    function Snapshot(): Store
      reads this
    {
      Store(active, activeOrder, completed, completedOrder)
    }

    ghost predicate Valid()
      reads this
    {
      Consistent(Snapshot())
    }

    constructor ()
      ensures Snapshot() == EmptyStore
      ensures Valid()
    {
      active := map[];
      activeOrder := [];
      completed := map[];
      completedOrder := [];
    }

    /** start_scan under the fresh id the caller drew. */
    method StartScan(id: string, request: ScanRequest, now: Instant) returns (response: ScanResponse)
      requires Valid()
      requires id !in active && id !in completed
      modifies this
      ensures Snapshot() == Start(old(Snapshot()), id, request, now)
      ensures Valid()
      ensures response == ScanResponse(id, "starting", "Scan started successfully")
    {
      StartEffect(Snapshot(), id, request, now);
      active := active[id := ActiveScan("starting", now, 0, request.target, request.options, None)];
      activeOrder := activeOrder + [id];
      response := ScanResponse(id, "starting", "Scan started successfully");
    }

    method CancelScan(id: string) returns (response: Result<string, HttpError>)
      requires Valid()
      modifies this
      ensures response == CancelResponse(old(Snapshot()), id)
      ensures Snapshot() == Cancelled(old(Snapshot()), id)
      ensures Valid()
    {
      CancelEffect(Snapshot(), id);
      if id !in active {
        return Failure(HttpError(404, "Active scan not found"));
      }
      active := active[id := active[id].(status := "cancelled")];
      active := active[id := active[id].(message := Some("Scan cancelled by user"))];
      response := Success("Scan cancelled successfully");
    }

    method MarkFailed(id: string, error: string)
      requires id in active
      modifies this
      ensures active == old(active)[id := old(active)[id].(status := "failed", message := Some(error), progress := 0)]
      ensures activeOrder == old(activeOrder) && completed == old(completed)
      ensures completedOrder == old(completedOrder)
    {
      active := active[id := active[id].(status := "failed")];
      active := active[id := active[id].(message := Some(error))];
      active := active[id := active[id].(progress := 0)];
    }

    /** The success branch of execute_scan: store the completed entry,
        then delete the active one. */
    method Complete(id: string, request: ScanRequest, results: ScanData, now: Instant)
      requires id in active
      modifies this
      ensures Snapshot() == Store(old(active) - {id}, RemoveKey(old(activeOrder), id),
                                  old(completed)[id := CompletedScan(request.target, old(active)[id].startedAt, now, results)],
                                  InsertKey(old(completedOrder), id))
    {
      active := active[id := active[id].(progress := 80)];
      completedOrder := InsertKey(completedOrder, id);
      completed := completed[id := CompletedScan(request.target, active[id].startedAt, now, results)];
      active := active - {id};
      activeOrder := RemoveKey(activeOrder, id);
    }

    /** execute_scan, with the scanner's outcome as a parameter. */
    method ExecuteScan(id: string, request: ScanRequest, outcome: Result<ScanData, string>, now: Instant)
      requires Valid()
      modifies this
      ensures Snapshot() == Execute(old(Snapshot()), id, request, outcome, now)
      ensures Valid()
    {
      ghost var s0 := Snapshot();
      ExecuteConsistent(s0, id, request, outcome, now);
      if id in active {
        SetProgress(id, "running", 10, request, outcome, now);
        if request.aiScan == Some(true) {
          MarkFailed(id, BatchScanning.SmartScannerTypeError);
        } else {
          Proceed(id, request, outcome, now);
        }
      }
    }

    /** One progress write of execute_scan; it does not change what the
        rest of the run leaves behind. */
    method SetProgress(id: string, status: string, progress: int, request: ScanRequest,
                       outcome: Result<ScanData, string>, now: Instant)
      requires id in active
      modifies this
      ensures active == old(active)[id := old(active)[id].(status := status, progress := progress)]
      ensures activeOrder == old(activeOrder) && completed == old(completed)
      ensures completedOrder == old(completedOrder)
      ensures Execute(Snapshot(), id, request, outcome, now) == Execute(old(Snapshot()), id, request, outcome, now)
    {
      ghost var s0 := Snapshot();
      active := active[id := active[id].(status := status, progress := progress)];
      ExecuteIgnoresProgress(s0, id, status, progress, request, outcome, now);
    }

    /** execute_scan after the scanner was built: progress 20 and 30, then
        the scanner's outcome decides. */
    method Proceed(id: string, request: ScanRequest, outcome: Result<ScanData, string>, now: Instant)
      requires id in active && request.aiScan != Some(true)
      modifies this
      ensures Snapshot() == Execute(old(Snapshot()), id, request, outcome, now)
    {
      SetProgress(id, active[id].status, 20, request, outcome, now);
      SetProgress(id, active[id].status, 30, request, outcome, now);
      match outcome {
        case Failure(error) =>
          MarkFailed(id, error);
        case Success(results) =>
          Complete(id, request, results, now);
      }
    }

    /** list_scans. */
    method ListScans() returns (rows: seq<ScanRow>)
      requires Valid()
      ensures rows == Rows(Snapshot())
    {
      rows := [];
      for i := 0 to |activeOrder|
        invariant rows == ActiveRows(activeOrder[..i], active)
      {
        assert activeOrder[..i + 1][..i] == activeOrder[..i];
        rows := rows + [ActiveRow(activeOrder[i], active[activeOrder[i]])];
      }
      assert activeOrder[..|activeOrder|] == activeOrder;
      var head := rows;
      for j := 0 to |completedOrder|
        invariant rows == head + CompletedRows(completedOrder[..j], completed)
      {
        assert completedOrder[..j + 1][..j] == completedOrder[..j];
        rows := rows + [CompletedRow(completedOrder[j], completed[completedOrder[j]])];
      }
      assert completedOrder[..|completedOrder|] == completedOrder;
    }
  }

  // ---------------------------------------------------------------------
  // Configuration update
  // ---------------------------------------------------------------------

  /** The configuration fields the API reads and writes. */
  datatype Settings = Settings(
    scanningTimeout: int, maxThreads: int, defaultPorts: string,
    enableSmartScanning: bool, enableVulnerabilityDetection: bool,
    aiConfidenceThreshold: real, defaultOutputFormat: string, resultsDir: string)

  function TruthyInt(v: Option<int>): bool
  {
    v.Some? && v.value != 0
  }

  function TruthyReal(v: Option<real>): bool
  {
    v.Some? && v.value != 0.0
  }

  /** update_configuration: timeout and thread count are written when
      truthy, the smart-scanning flag whenever it is not None, the
      confidence threshold when truthy; nothing else is written. */
  function UpdateConfiguration(c: Settings, u: ConfigUpdate): (r: Settings)
    ensures r.defaultPorts == c.defaultPorts
    ensures r.enableVulnerabilityDetection == c.enableVulnerabilityDetection
    ensures r.defaultOutputFormat == c.defaultOutputFormat && r.resultsDir == c.resultsDir
    ensures r.scanningTimeout != c.scanningTimeout ==>
      u.scanning.Some? && u.scanning.value.defaultTimeout == Some(r.scanningTimeout)
    ensures r.maxThreads != c.maxThreads ==>
      u.scanning.Some? && u.scanning.value.maxThreads == Some(r.maxThreads)
    ensures r.enableSmartScanning != c.enableSmartScanning ==>
      u.ai.Some? && u.ai.value.enableSmartScanning == Some(r.enableSmartScanning)
    ensures r.aiConfidenceThreshold != c.aiConfidenceThreshold ==>
      u.ai.Some? && u.ai.value.confidenceThreshold == Some(r.aiConfidenceThreshold)
    ensures r.scanningTimeout ==
      if u.scanning.Some? && TruthyInt(u.scanning.value.defaultTimeout)
      then u.scanning.value.defaultTimeout.value else c.scanningTimeout
    ensures r.maxThreads ==
      if u.scanning.Some? && TruthyInt(u.scanning.value.maxThreads)
      then u.scanning.value.maxThreads.value else c.maxThreads
    ensures r.enableSmartScanning ==
      if u.ai.Some? && u.ai.value.enableSmartScanning.Some?
      then u.ai.value.enableSmartScanning.value else c.enableSmartScanning
    ensures r.aiConfidenceThreshold ==
      if u.ai.Some? && TruthyReal(u.ai.value.confidenceThreshold)
      then u.ai.value.confidenceThreshold.value else c.aiConfidenceThreshold
  {
    var c1 :=
      if u.scanning.None? then c
      else
        var sc := u.scanning.value;
        c.(scanningTimeout := if TruthyInt(sc.defaultTimeout) then sc.defaultTimeout.value else c.scanningTimeout,
           maxThreads := if TruthyInt(sc.maxThreads) then sc.maxThreads.value else c.maxThreads);
    if u.ai.None? then c1
    else
      var ai := u.ai.value;
      c1.(enableSmartScanning := if ai.enableSmartScanning.Some? then ai.enableSmartScanning.value
                                 else c1.enableSmartScanning,
          aiConfidenceThreshold := if TruthyReal(ai.confidenceThreshold) then ai.confidenceThreshold.value
                                   else c1.aiConfidenceThreshold)
  }

  /** For validated scanning settings every value given is written. */
  lemma ValidatedUpdateWrites(c: Settings, u: ConfigUpdate)
    requires u.scanning.Some? && ValidateScanningSettings(u.scanning.value).Success?
    ensures var r := UpdateConfiguration(c, u);
      (u.scanning.value.defaultTimeout.Some? ==> r.scanningTimeout == u.scanning.value.defaultTimeout.value)
      && (u.scanning.value.maxThreads.Some? ==> r.maxThreads == u.scanning.value.maxThreads.value)
  {
    ValidatedSettingsTruthy(u.scanning.value);
  }

  /** A threshold of 0.0 passes validation but is never written. */
  lemma ZeroThresholdIgnored(c: Settings, u: ConfigUpdate)
    requires u.ai.Some? && u.ai.value.confidenceThreshold == Some(0.0)
    ensures UpdateConfiguration(c, u).aiConfidenceThreshold == c.aiConfidenceThreshold
  {
  }

  /** Output settings alone change nothing. */
  lemma OutputOnlyUpdateIgnored(c: Settings, o: Option<OutputSettings>)
    ensures UpdateConfiguration(c, ConfigUpdate(None, None, o)) == c
  {
  }

  /** Applying the same update twice is applying it once. */
  lemma UpdateIdempotent(c: Settings, u: ConfigUpdate)
    ensures UpdateConfiguration(UpdateConfiguration(c, u), u) == UpdateConfiguration(c, u)
  {
  }
}
