/**
 * handle_argv: the walk over the parsed command-line options that sets
 * the process-wide slots, edits the preference map and queues metric
 * requests. Options arrive as the (option, argument) pairs getopt
 * produces; an option without an argument carries "".
 */
module Argv {
  import opened Wrappers
  import opened References
  import opened MetricQueues

  type ParsedOpt = (string, string)

  // ---------------------------------------------------------------------
  // What getopt accepts

  /** The short options: i, c, o, b and r take an argument, h does not. */
  const ShortOptions: seq<string> := ["-i", "-c", "-o", "-b", "-r", "-h"]

  /** The long option names, without the "=" that marks an argument. */
  const LongNames: seq<string> :=
    ["input_file", "output_file", "compare_file", "backend", "backend_input",
     "backend_compare", "routing", "routing_input", "routing_compare",
     "set_API_key", "set_default_input_file", "set_default_output_file",
     "set_default_backend_input", "set_default_backend_compare",
     "set_default_routing_input", "set_default_routing_compare",
     "reset_all", "show_defaults", "metricCountGate", "metricRatioGate",
     "metricDiffGate", "metricDiffDepth", "metricRatioDepth",
     "metricCircuitDepth", "metricRaw", "available_backends", "help"]

  /**
   * An option name getopt can hand back. A long option written as a unique
   * prefix of a name is returned under the full name.
   */
  predicate Accepted(opt: string)
  {
    opt in ShortOptions || exists n :: n in LongNames && opt == "--" + n
  }

  /**
   * No accepted long name starts with "set_default_compare_file", so getopt
   * rejects that option and never hands it to the loop.
   */
  lemma SetDefaultCompareFileRejected()
    ensures forall n :: n in LongNames ==> !("set_default_compare_file" <= n)
    ensures !Accepted("--set_default_compare_file")
  {
    var key := "set_default_compare_file";
    assert |key| == 24 && key[12] == 'c';
    forall n | n in LongNames ensures !(key <= n) {
      if |n| >= 24 {
        assert n[12] != 'c';
      }
    }
  }

  // ---------------------------------------------------------------------
  // The effect of one option

  /** The slot an option sets to its argument, if any. */
  function ArgumentSlot(opt: string): Option<Slot>
  {
    if opt in ["-i", "--input_file"] then Some(InputFile)
    else if opt in ["-c", "--compare_file"] then Some(CompareFile)
    else if opt in ["-o", "--output_file"] then Some(OutputFile)
    else if opt in ["-b", "--backend_input", "--backend"] then Some(BackendStrInput)
    else if opt == "--backend_compare" then Some(BackendStrCompare)
    else if opt in ["-r", "--routing_input", "--routing"] then Some(RoutingInput)
    else if opt == "--routing_compare" then Some(RoutingCompare)
    else None
  }

  /**
   * The slot an option writes and the value it writes: the argument for
   * the file, backend and routing options, True for the show-backends flag.
   */
  function SlotUpdate(opt: string, arg: string): Option<(Slot, Value)>
  {
    if opt == "--available_backends" then Some((ShowBackends, Bool(true)))
    else match ArgumentSlot(opt)
      case Some(k) => Some((k, Str(arg)))
      case None => None
  }

  /** The slots after one option. */
  function SlotStep(m: map<Slot, Cell>, o: ParsedOpt): map<Slot, Cell>
  {
    match SlotUpdate(o.0, o.1)
    case Some((k, v)) => m[k := Cell(v, "")]
    case None => m
  }

  /** The preference key an option sets to its argument, if any. */
  function PrefKey(opt: string): Option<string>
  {
    if opt == "--set_API_key" then Some("API_KEY")
    else if opt == "--set_default_input_file" then Some("DEFAULT_INPUT_FILE")
    else if opt == "--set_default_compare_file" then Some("DEFAULT_COMPARE_FILE")
    else if opt == "--set_default_output_file" then Some("DEFAULT_OUTPUT_FILE")
    else if opt == "--set_default_backend_input" then Some("DEFAULT_BACKEND_INPUT")
    else if opt == "--set_default_backend_compare" then Some("DEFAULT_BACKEND_COMPARE")
    else if opt == "--set_default_routing_input" then Some("DEFAULT_ROUTING_INPUT")
    else if opt == "--set_default_routing_compare" then Some("DEFAULT_ROUTING_COMPARE")
    else None
  }

  /** The defaults --reset_all clears; the API key and the compare file are not among them. */
  const ResetKeys: set<string> :=
    {"DEFAULT_INPUT_FILE", "DEFAULT_OUTPUT_FILE", "DEFAULT_BACKEND_INPUT",
     "DEFAULT_BACKEND_COMPARE", "DEFAULT_ROUTING_INPUT", "DEFAULT_ROUTING_COMPARE"}

  /** The preference map after one option. */
  function PrefStep(p: map<string, Value>, o: ParsedOpt): map<string, Value>
  {
    match PrefKey(o.0)
    case Some(key) => p[key := Str(o.1)]
    case None =>
      if o.0 == "--reset_all" then
        p["DEFAULT_INPUT_FILE" := Str("")]["DEFAULT_OUTPUT_FILE" := Str("")]
         ["DEFAULT_BACKEND_INPUT" := Str("")]["DEFAULT_BACKEND_COMPARE" := Str("")]
         ["DEFAULT_ROUTING_INPUT" := Str("")]["DEFAULT_ROUTING_COMPARE" := Str("")]
      else p
  }

  /** The requests one option queues, in the order it queues them. */
  function Enqueued(o: ParsedOpt): seq<Request>
  {
    var (opt, arg) := o;
    if opt == "--metricCountGate" then [CountGate(arg)]
    else if opt == "--metricDiffGate" then [DiffGate(arg)]
    else if opt == "--metricRatioGate" then [RatioGate(arg)]
    else if opt == "--metricDiffDepth" then [DiffDepth]
    else if opt == "--metricCircuitDepth" then [CircuitDepth]
    else if opt == "--metricRatioDepth" then [RatioDepth]
    else if opt == "--metricRaw" then [Raw(Input), Raw(Compare)]
    else []
  }

  /** The options that queue one request each. */
  const SingleMetricOptions: set<string> :=
    {"--metricCountGate", "--metricDiffGate", "--metricRatioGate",
     "--metricDiffDepth", "--metricCircuitDepth", "--metricRatioDepth"}

  // ---------------------------------------------------------------------
  // The effect of the option list, option by option

  function SlotsAfter(m: map<Slot, Cell>, opts: seq<ParsedOpt>): map<Slot, Cell>
  {
    if opts == [] then m else SlotStep(SlotsAfter(m, opts[..|opts| - 1]), opts[|opts| - 1])
  }

  function PrefsAfter(p: map<string, Value>, opts: seq<ParsedOpt>): map<string, Value>
  {
    if opts == [] then p else PrefStep(PrefsAfter(p, opts[..|opts| - 1]), opts[|opts| - 1])
  }

  function Requests(opts: seq<ParsedOpt>): seq<Request>
  {
    if opts == [] then [] else Requests(opts[..|opts| - 1]) + Enqueued(opts[|opts| - 1])
  }

  // ---------------------------------------------------------------------
  // Properties of the option walk

  /** Option `o` writes slot `k`. */
  predicate Writes(o: ParsedOpt, k: Slot)
  {
    SlotUpdate(o.0, o.1).Some? && SlotUpdate(o.0, o.1).value.0 == k
  }

  /**
   * Among options that write the same slot the last one wins: the slot
   * ends up holding what option `j` wrote when no later option writes it.
   */
  lemma {:induction false} LastOptionWins(m: map<Slot, Cell>, opts: seq<ParsedOpt>, j: nat, k: Slot)
    requires j < |opts| && Writes(opts[j], k)
    requires forall l :: j < l < |opts| ==> !Writes(opts[l], k)
    ensures k in SlotsAfter(m, opts)
    ensures SlotsAfter(m, opts)[k] == Cell(SlotUpdate(opts[j].0, opts[j].1).value.1, "")
  {
    var init := opts[..|opts| - 1];
    if j < |opts| - 1 {
      LastOptionWins(m, init, j, k);
    }
  }

  /** A slot no option writes keeps its contents. */
  lemma {:induction false} SlotUntouched(m: map<Slot, Cell>, opts: seq<ParsedOpt>, k: Slot)
    requires forall l :: 0 <= l < |opts| ==> !Writes(opts[l], k)
    ensures k in SlotsAfter(m, opts) <==> k in m
    ensures k in m ==> SlotsAfter(m, opts)[k] == m[k]
  {
    if opts != [] {
      SlotUntouched(m, opts[..|opts| - 1], k);
    }
  }

  /** The requests of two option lists in a row are the first's, then the second's. */
  lemma {:induction false} RequestsAppend(a: seq<ParsedOpt>, b: seq<ParsedOpt>)
    ensures Requests(a + b) == Requests(a) + Requests(b)
  {
    if b != [] {
      var b', x := b[..|b| - 1], b[|b| - 1];
      assert a + b == (a + b') + [x] && b == b' + [x];
      RequestsAppend(a, b');
      RequestsSnoc(a + b', x);
      RequestsSnoc(b', x);
    } else {
      assert a + b == a;
    }
  }

  /** One more option adds its own requests at the back. */
  lemma RequestsSnoc(opts: seq<ParsedOpt>, x: ParsedOpt)
    ensures Requests(opts + [x]) == Requests(opts) + Enqueued(x)
  {
    assert (opts + [x])[..|opts|] == opts;
  }

  /**
   * The requests of option `i` sit in the queue directly after those of
   * the options before it: requests are queued in option order.
   */
  lemma QueuedInOption(opts: seq<ParsedOpt>, i: nat)
    requires i < |opts|
    ensures var at := |Requests(opts[..i])|;
      at + |Enqueued(opts[i])| <= |Requests(opts)|
      && Requests(opts)[at..at + |Enqueued(opts[i])|] == Enqueued(opts[i])
  {
    assert opts == opts[..i] + [opts[i]] + opts[i + 1..];
    RequestsAppend(opts[..i] + [opts[i]], opts[i + 1..]);
    RequestsAppend(opts[..i], [opts[i]]);
    assert [opts[i]][..0] == [];
  }

  /**
   * Each single metric option queues exactly its own request, carrying the
   * gate argument where there is one; --metricRaw queues the input-side
   * raw request, then the compare-side one; every other option queues
   * nothing.
   */
  lemma EnqueuedByOption(o: ParsedOpt)
    ensures o.0 in SingleMetricOptions <==> |Enqueued(o)| == 1
    ensures o.0 == "--metricRaw" <==> Enqueued(o) == [Raw(Input), Raw(Compare)]
    ensures o.0 == "--metricDiffGate" ==> Enqueued(o) == [DiffGate(o.1)]
    ensures o.0 == "--metricCountGate" ==> Enqueued(o) == [CountGate(o.1)]
    ensures o.0 == "--metricRatioGate" ==> Enqueued(o) == [RatioGate(o.1)]
    ensures o.0 == "--metricDiffDepth" ==> Enqueued(o) == [DiffDepth]
    ensures o.0 == "--metricCircuitDepth" ==> Enqueued(o) == [CircuitDepth]
    ensures o.0 == "--metricRatioDepth" ==> Enqueued(o) == [RatioDepth]
    ensures o.0 !in SingleMetricOptions && o.0 != "--metricRaw" ==> Enqueued(o) == []
  {
  }

  /** An option that queues something changes neither a slot nor a preference. */
  lemma MetricOptionsOnlyQueue(o: ParsedOpt, p: map<string, Value>, m: map<Slot, Cell>)
    requires Enqueued(o) != []
    ensures SlotStep(m, o) == m && PrefStep(p, o) == p
  {
    assert o.0 in SingleMetricOptions || o.0 == "--metricRaw";
    assert SlotUpdate(o.0, o.1).None?;
    assert PrefKey(o.0).None? && o.0 != "--reset_all";
  }

  /** When no option queues anything, the queue is left as it was. */
  lemma {:induction false} NonMetricOptionsQueueNothing(opts: seq<ParsedOpt>)
    requires forall i :: 0 <= i < |opts| ==> Enqueued(opts[i]) == []
    ensures Requests(opts) == []
  {
    if opts != [] {
      NonMetricOptionsQueueNothing(opts[..|opts| - 1]);
    }
  }

  /**
   * --reset_all blanks the six defaults and leaves every other key, the
   * API key and the default compare file among them, as it was.
   */
  lemma ResetAll(p: map<string, Value>, arg: string)
    ensures var p' := PrefStep(p, ("--reset_all", arg));
      && (forall key :: key in ResetKeys ==> key in p' && p'[key] == Str(""))
      && (forall key :: key !in ResetKeys ==> (key in p' <==> key in p))
      && (forall key :: key !in ResetKeys && key in p ==> p'[key] == p[key])
      && "API_KEY" !in ResetKeys && "DEFAULT_COMPARE_FILE" !in ResetKeys
  {
  }

  /**
   * Through getopt the default compare file never changes: the only option
   * that would set it is rejected before the loop.
   */
  lemma {:induction false} CompareFileDefaultKept(p: map<string, Value>, opts: seq<ParsedOpt>)
    requires forall i :: 0 <= i < |opts| ==> Accepted(opts[i].0)
    ensures var p' := PrefsAfter(p, opts);
      ("DEFAULT_COMPARE_FILE" in p' <==> "DEFAULT_COMPARE_FILE" in p)
      && ("DEFAULT_COMPARE_FILE" in p ==> p'["DEFAULT_COMPARE_FILE"] == p["DEFAULT_COMPARE_FILE"])
  {
    if opts != [] {
      var init := opts[..|opts| - 1];
      CompareFileDefaultKept(p, init);
      SetDefaultCompareFileRejected();
      PrefStepKeepsCompareFile(PrefsAfter(p, init), opts[|opts| - 1]);
    }
  }

  /** Only --set_default_compare_file touches the default compare file. */
  lemma PrefStepKeepsCompareFile(p: map<string, Value>, o: ParsedOpt)
    requires o.0 != "--set_default_compare_file"
    ensures var p' := PrefStep(p, o);
      ("DEFAULT_COMPARE_FILE" in p' <==> "DEFAULT_COMPARE_FILE" in p)
      && ("DEFAULT_COMPARE_FILE" in p ==> p'["DEFAULT_COMPARE_FILE"] == p["DEFAULT_COMPARE_FILE"])
  {
    if PrefKey(o.0).Some? {
      assert PrefKey(o.0).value != "DEFAULT_COMPARE_FILE";
    }
  }

  // ---------------------------------------------------------------------
  // The loop

  /** The slot assignments of one option, as the chain of tests in the loop body. */
  method ApplySlotOption(settings: Settings, opt: string, arg: string)
    requires settings.Valid()
    modifies settings.cells.Values
    ensures settings.Snapshot() == SlotStep(old(settings.Snapshot()), (opt, arg))
  {
    if opt in ["-i", "--input_file"] {
      settings.Assign(InputFile, Str(arg));
    } else if opt in ["-c", "--compare_file"] {
      settings.Assign(CompareFile, Str(arg));
    } else if opt in ["-o", "--output_file"] {
      settings.Assign(OutputFile, Str(arg));
    } else if opt in ["-b", "--backend_input", "--backend"] {
      settings.Assign(BackendStrInput, Str(arg));
    } else if opt == "--backend_compare" {
      settings.Assign(BackendStrCompare, Str(arg));
    } else if opt in ["-r", "--routing_input", "--routing"] {
      settings.Assign(RoutingInput, Str(arg));
    } else if opt == "--routing_compare" {
      settings.Assign(RoutingCompare, Str(arg));
    } else if opt == "--available_backends" {
      settings.Assign(ShowBackends, Bool(true));
    }
  }

  /** The preference edits of one option. */
  method ApplyPrefOption(p: map<string, Value>, opt: string, arg: string) returns (p': map<string, Value>)
    ensures p' == PrefStep(p, (opt, arg))
  {
    p' := p;
    if opt == "--set_API_key" {
      p' := p'["API_KEY" := Str(arg)];
    }
    if opt == "--set_default_input_file" {
      p' := p'["DEFAULT_INPUT_FILE" := Str(arg)];
    }
    if opt == "--set_default_compare_file" {
      p' := p'["DEFAULT_COMPARE_FILE" := Str(arg)];
    }
    if opt == "--set_default_output_file" {
      p' := p'["DEFAULT_OUTPUT_FILE" := Str(arg)];
    }
    if opt == "--set_default_backend_input" {
      p' := p'["DEFAULT_BACKEND_INPUT" := Str(arg)];
    }
    if opt == "--set_default_backend_compare" {
      p' := p'["DEFAULT_BACKEND_COMPARE" := Str(arg)];
    }
    if opt == "--set_default_routing_input" {
      p' := p'["DEFAULT_ROUTING_INPUT" := Str(arg)];
    }
    if opt == "--set_default_routing_compare" {
      p' := p'["DEFAULT_ROUTING_COMPARE" := Str(arg)];
    }
    if opt == "--reset_all" {
      p' := p'["DEFAULT_INPUT_FILE" := Str("")];
      p' := p'["DEFAULT_OUTPUT_FILE" := Str("")];
      p' := p'["DEFAULT_BACKEND_INPUT" := Str("")];
      p' := p'["DEFAULT_BACKEND_COMPARE" := Str("")];
      p' := p'["DEFAULT_ROUTING_INPUT" := Str("")];
      p' := p'["DEFAULT_ROUTING_COMPARE" := Str("")];
    }
  }

  /** The metric requests of one option, put on the queue. */
  method EnqueueOption(queue: MetricQueue, opt: string, arg: string)
    modifies queue
    ensures queue.items == old(queue.items) + Enqueued((opt, arg))
  {
    if opt == "--metricCountGate" {
      queue.Put(CountGate(arg));
    }
    if opt == "--metricDiffGate" {
      queue.Put(DiffGate(arg));
    }
    if opt == "--metricRatioGate" {
      queue.Put(RatioGate(arg));
    }
    if opt == "--metricDiffDepth" {
      queue.Put(DiffDepth);
    }
    if opt == "--metricCircuitDepth" {
      queue.Put(CircuitDepth);
    }
    if opt == "--metricRatioDepth" {
      queue.Put(RatioDepth);
    }
    if opt == "--metricRaw" {
      queue.Put(Raw(Input));
      queue.Put(Raw(Compare));
    }
  }

  /** The slots, the preference map and the queued requests together. */
  datatype Walked = Walked(slots: map<Slot, Cell>, prefs: map<string, Value>, queued: seq<Request>)

  /** One option's effect on all three. */
  function Step(w: Walked, o: ParsedOpt): Walked
  {
    Walked(SlotStep(w.slots, o), PrefStep(w.prefs, o), w.queued + Enqueued(o))
  }

  function WalkAfter(w: Walked, opts: seq<ParsedOpt>): Walked
  {
    if opts == [] then w else Step(WalkAfter(w, opts[..|opts| - 1]), opts[|opts| - 1])
  }

  /** The walk is the three folds side by side. */
  lemma {:induction false} WalkAfterParts(w: Walked, opts: seq<ParsedOpt>)
    ensures WalkAfter(w, opts) == Walked(SlotsAfter(w.slots, opts), PrefsAfter(w.prefs, opts), w.queued + Requests(opts))
  {
    if opts != [] {
      var init, x := opts[..|opts| - 1], opts[|opts| - 1];
      WalkAfterParts(w, init);
      assert w.queued + Requests(opts) == (w.queued + Requests(init)) + Enqueued(x);
    }
  }

  /** The body of the loop: one option's slot, preference and queue effects. */
  method HandleOption(settings: Settings, queue: MetricQueue, prefs: map<string, Value>, opt: string, arg: string)
    returns (prefs': map<string, Value>)
    requires settings.Valid()
    modifies settings.cells.Values, queue
    ensures Walked(settings.Snapshot(), prefs', queue.items)
      == Step(Walked(old(settings.Snapshot()), prefs, old(queue.items)), (opt, arg))
  {
    ApplySlotOption(settings, opt, arg);
    prefs' := ApplyPrefOption(prefs, opt, arg);
    EnqueueOption(queue, opt, arg);
  }

  /**
   * handle_argv after getopt succeeded: every option in turn updates the
   * slots, the preference map and the queue. The preference map is
   * returned with the queue left in place.
   */
  method HandleArgv(opts: seq<ParsedOpt>, settings: Settings, queue: MetricQueue, userPref: map<string, Value>)
    returns (prefs: map<string, Value>)
    requires settings.Valid()
    modifies settings.cells.Values, queue
    ensures settings.Snapshot() == SlotsAfter(old(settings.Snapshot()), opts)
    ensures queue.items == old(queue.items) + Requests(opts)
    ensures prefs == PrefsAfter(userPref, opts)
  {
    prefs := userPref;
    ghost var start := Walked(settings.Snapshot(), userPref, queue.items);
    for i := 0 to |opts|
      invariant Walked(settings.Snapshot(), prefs, queue.items) == WalkAfter(start, opts[..i])
    {
      var o := opts[i];
      assert opts[..i + 1][..i] == opts[..i];
      prefs := HandleOption(settings, queue, prefs, o.0, o.1);
    }
    assert opts[..|opts|] == opts;
    WalkAfterParts(start, opts);
  }
}
