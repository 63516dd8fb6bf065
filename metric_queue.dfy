/**
 * The metric queue: deferred metric requests bound to reference slots,
 * the FIFO queue they wait in, and run_metrics, which drains it and
 * concatenates what each request's printer returns.
 */
module MetricQueues {
  import opened Wrappers
  import opened References
  import PrintMetrics

  datatype Side = Input | Compare

  /**
   * A queued metric. The gate metrics carry the gate string given on the
   * command line; a raw request is bound to the input or the compare side.
   */
  datatype Request =
    | CountGate(gate: string)
    | DiffGate(gate: string)
    | RatioGate(gate: string)
    | DiffDepth
    | CircuitDepth
    | RatioDepth
    | Raw(side: Side)

  /**
   * The references a request is bound to, in argument order. They are read
   * when the request runs, not when it is queued.
   */
  function BoundSlots(r: Request): seq<Slot>
  {
    match r
    case Raw(Input) => [ContainerInput, InputCircuit, BackendInput]
    case Raw(Compare) => [ContainerCompare, CompareCircuit, BackendCompare]
    case _ => [InputCircuit, CompareCircuit]
  }

  /** The queue object handle_argv fills and run_metrics drains. */
  class MetricQueue {
    var items: seq<Request>

    constructor ()
      ensures items == []
    {
      items := [];
    }

    method Put(r: Request)
      modifies this
      ensures items == old(items) + [r]
    {
      items := items + [r];
    }

    /** Removes the oldest request; the caller checks emptiness first. */
    method Get() returns (r: Request)
      requires items != []
      modifies this
      ensures r == old(items)[0] && items == old(items)[1..]
    {
      r := items[0];
      items := items[1..];
    }

    method Empty() returns (e: bool)
      ensures e <==> items == []
    {
      e := |items| == 0;
    }
  }

  /** The exception run_metrics can raise: concatenating None onto a string. */
  datatype Raised = TypeError

  /** Puts `s` in front of the text of a successful drain. */
  function Prepend(s: string, d: (Result<string, Raised>, seq<Request>)): (Result<string, Raised>, seq<Request>)
  {
    match d.0
    case Ok(t) => (Ok(s + t), d.1)
    case Err(e) => d
  }

  /** Prepending nothing changes nothing; prepending twice prepends the join. */
  lemma PrependLaws(s: string, u: string, d: (Result<string, Raised>, seq<Request>))
    ensures Prepend("", d) == d
    ensures Prepend(s, Prepend(u, d)) == Prepend(s + u, d)
  {
    if d.0.Ok? {
      assert "" + d.0.value == d.0.value;
      assert s + (u + d.0.value) == (s + u) + d.0.value;
    }
  }

  /**
   * What run_metrics makes of the queued requests `items` when `ret` gives
   * what each request's printer returns (None for Python's None): the
   * report or the exception, and the requests still queued afterwards.
   */
  function Drain(items: seq<Request>, ret: Request -> Option<string>): (Result<string, Raised>, seq<Request>)
  {
    if items == [] then (Ok(""), [])
    else match ret(items[0])
      case None => (Err(TypeError), items[1..])
      case Some(s) => Prepend(s, Drain(items[1..], ret))
  }

  /** run_metrics: dequeues each request in turn and appends what its printer returns. */
  method RunMetrics(queue: MetricQueue, ret: Request -> Option<string>) returns (r: Result<string, Raised>)
    modifies queue
    ensures (r, queue.items) == Drain(old(queue.items), ret)
  {
    var out := "";
    PrependLaws(out, out, Drain(queue.items, ret));
    var empty := queue.Empty();
    while !empty
      invariant empty <==> queue.items == []
      invariant Drain(old(queue.items), ret) == Prepend(out, Drain(queue.items, ret))
      decreases |queue.items|
    {
      var current := queue.Get();
      match ret(current)
      case None =>
        return Err(TypeError);
      case Some(s) =>
        PrependLaws(out, s, Drain(queue.items, ret));
        out := out + s;
      empty := queue.Empty();
    }
    assert Drain(queue.items, ret) == (Ok(""), []);
    assert out + "" == out;
    r := Ok(out);
  }

  /** The strings `ret` gives for `items`, one after another. */
  function Concat(items: seq<Request>, ret: Request -> Option<string>): string
    requires forall i :: 0 <= i < |items| ==> ret(items[i]).Some?
  {
    if items == [] then "" else Concat(items[..|items| - 1], ret) + ret(items[|items| - 1]).value
  }

  /**
   * When every printer returns a string, run_metrics returns their
   * concatenation in queue order and leaves the queue empty.
   */
  lemma {:induction false} DrainConcatenates(items: seq<Request>, ret: Request -> Option<string>)
    requires forall i :: 0 <= i < |items| ==> ret(items[i]).Some?
    ensures Drain(items, ret) == (Ok(Concat(items, ret)), [])
  {
    if items != [] {
      var tail := items[1..];
      DrainConcatenates(tail, ret);
      ConcatCons(items, ret);
    }
  }

  /** Concat read from the front: the first string, then the rest. */
  lemma {:induction false} ConcatCons(items: seq<Request>, ret: Request -> Option<string>)
    requires items != []
    requires forall i :: 0 <= i < |items| ==> ret(items[i]).Some?
    ensures Concat(items, ret) == ret(items[0]).value + Concat(items[1..], ret)
  {
    if |items| > 1 {
      var init, last, tail := items[..|items| - 1], items[|items| - 1], items[1..];
      ConcatCons(init, ret);
      assert init[1..] == tail[..|tail| - 1] && tail[|tail| - 1] == last && init[0] == items[0];
      calc {
        Concat(items, ret);
        Concat(init, ret) + ret(last).value;
        (ret(items[0]).value + Concat(init[1..], ret)) + ret(last).value;
        ret(items[0]).value + (Concat(init[1..], ret) + ret(last).value);
        ret(items[0]).value + Concat(tail, ret);
      }
    } else {
      assert items[..0] == [];
    }
  }

  /**
   * The first printer that returns None ends the run with a TypeError;
   * the requests behind it stay queued.
   */
  lemma {:induction false} DrainStopsAtNone(items: seq<Request>, ret: Request -> Option<string>, k: nat)
    requires k < |items| && ret(items[k]).None?
    requires forall i :: 0 <= i < k ==> ret(items[i]).Some?
    ensures Drain(items, ret) == (Err(TypeError), items[k + 1..])
  {
    if k > 0 {
      DrainStopsAtNone(items[1..], ret, k - 1);
      assert items[1..][k..] == items[k + 1..];
    }
  }

  /**
   * A printer that returns None at position `k` makes the run raise a
   * TypeError no later than there: what stays queued is a suffix of the
   * queue that still holds every request after position `k`.
   */
  lemma {:induction false} DrainFailsByNone(items: seq<Request>, ret: Request -> Option<string>, k: nat)
    requires k < |items| && ret(items[k]).None?
    ensures var d := Drain(items, ret);
      && d.0 == Err(TypeError)
      && |items| - k - 1 <= |d.1| < |items|
      && d.1 == items[|items| - |d.1|..]
  {
    if ret(items[0]).Some? {
      var tail := items[1..];
      DrainFailsByNone(tail, ret, k - 1);
      var d := Drain(tail, ret);
      assert Drain(items, ret) == d;
      assert tail[|tail| - |d.1|..] == items[|items| - |d.1|..];
    }
  }

  // ---------------------------------------------------------------------
  // What the printers return

  /**
   * What the printer behind a request returns as written:
   * printMetricDiffGate returns None. The other printers are not part of
   * this model; `others` stands for what they return, None included.
   */
  function Returned(r: Request, others: Request -> Option<string>): Option<string>
  {
    if r.DiffGate? then None else others(r)
  }

  /**
   * As written, a queued gate-difference request makes run_metrics raise a
   * TypeError, at the latest when that request is drained: its printer's
   * None is concatenated onto the report. When no printer before it
   * returns None, the run stops exactly there.
   */
  lemma DiffGateBreaksRunMetrics(items: seq<Request>, others: Request -> Option<string>, k: nat)
    requires k < |items| && items[k].DiffGate?
    ensures var d := Drain(items, r => Returned(r, others));
      && d.0 == Err(TypeError)
      && |items| - k - 1 <= |d.1| < |items|
      && d.1 == items[|items| - |d.1|..]
    ensures (forall i :: 0 <= i < k ==> Returned(items[i], others).Some?)
      ==> Drain(items, r => Returned(r, others)) == (Err(TypeError), items[k + 1..])
  {
    var ret := r => Returned(r, others);
    DrainFailsByNone(items, ret, k);
    if forall i :: 0 <= i < k ==> Returned(items[i], others).Some? {
      DrainStopsAtNone(items, ret, k);
    }
  }

  /**
   * As written, a gate-difference request drained from the queue hands its
   * printer the two references it is bound to, never None: with a known
   * gate only the result block is printed, even when the compare slot is
   * empty.
   */
  lemma QueuedDiffGateIgnoresEmptyCompare(gate: string, metric: (Option<Slot>, Option<Slot>, string) -> string)
    requires gate in PrintMetrics.Constants.ValidGateStrings
    ensures var bound := BoundSlots(DiffGate(gate));
      var e := PrintMetrics.PrintMetricDiffGate(Some(bound[0]), Some(bound[1]), gate, metric);
      && e.metricCalled
      && e.printed == [PrintMetrics.MetricOut(PrintMetrics.Fields(
           PrintMetrics.DiffGateDesc, gate, PrintMetrics.DiffGateNote,
           metric(Some(bound[0]), Some(bound[1]), gate)))]
  {
  }

  /**
   * What each printer returns as evidently intended: the gate-difference
   * report is returned, and checks the compare slot's emptiness.
   */
  function IntendedReturned(r: Request, compareBound: bool,
                            diffMetric: (Slot, Slot, string) -> string,
                            others: Request -> string): string
  {
    match r
    case DiffGate(g) => PrintMetrics.DiffGateReport(InputCircuit, CompareCircuit, compareBound, g, diffMetric)
    case _ => others(r)
  }

  /**
   * With the intended printer run_metrics never raises: the report is the
   * concatenation of every request's text in queue order, and the queue
   * ends empty. A gate-difference request with an empty compare slot
   * contributes the compare error.
   */
  lemma IntendedRunConcatenates(items: seq<Request>, slots: map<Slot, Cell>,
                                diffMetric: (Slot, Slot, string) -> string,
                                others: Request -> string)
    requires CompareCircuit in slots
    ensures var bound := !IsBlank(slots[CompareCircuit].val);
      Drain(items, r => Some(IntendedReturned(r, bound, diffMetric, others)))
        == (Ok(Concat(items, r => Some(IntendedReturned(r, bound, diffMetric, others)))), [])
  {
    var bound := !IsBlank(slots[CompareCircuit].val);
    DrainConcatenates(items, r => Some(IntendedReturned(r, bound, diffMetric, others)));
  }
}
