/**
 * The constant strings BAROQUE validates against: the IBM hardware and
 * simulator backend names, the gate identifiers accepted by the gate
 * metrics, and the routing and layout method names.
 */
module Constants {

  // IBM quantum system backend names
  const WashingtonSys := "ibm_washington"
  const KyivSys := "ibm_kyiv"
  const IthacaSys := "ibm_ithaca"
  const KolkataSys := "ibmq_kolkata"
  const MontrealSys := "ibmq_montreal"
  const MumbaiSys := "ibmq_mumbai"
  const CairoSys := "ibm_cairo"
  const AucklandSys := "ibm_auckland"
  const HanoiSys := "ibm_hanoi"
  const GenevaSys := "ibm_geneva"
  const TorontoSys := "ibmq_toronto"
  const PeekskillSys := "ibm_peekskill"
  const GuadalupeSys := "ibmq_guadalupe"
  const PerthSys := "ibm_perth"
  const LagosSys := "ibm_lagos"
  const NairobiSys := "ibm_nairobi"
  const OsloSys := "ibm_oslo"
  const JakartaSys := "ibmq_jakarta"
  const ManilaSys := "ibmq_manila"
  const QuitoSys := "ibmq_quito"
  const BelemSys := "ibmq_belem"
  const LimaSys := "ibmq_lima"

  /** The hardware names in the order the source lists them. */
  const HardwareList: seq<string> :=
    [WashingtonSys, KyivSys, IthacaSys, KolkataSys, MontrealSys, MumbaiSys, CairoSys,
     AucklandSys, HanoiSys, GenevaSys, TorontoSys, PeekskillSys, GuadalupeSys,
     PerthSys, LagosSys, NairobiSys, OsloSys, JakartaSys, ManilaSys,
     QuitoSys, BelemSys, LimaSys]

  const Hardware: set<string> := set h | h in HardwareList

  // IBM and Aer simulator backend names
  const StabilizerSim := "simulator_stabilizer"
  const MpsSim := "simulator_mps"
  const ExtStabilizerSim := "simulator_extended_stabilizer"
  const QasmSim := "ibmq_qasm_simulator"
  const StatevectorSim := "simulator_statevector"
  const AerSim := "aer_simulator"
  const AerQasmSim := "qasm_simulator"

  const SimulatorList: seq<string> :=
    [StabilizerSim, MpsSim, ExtStabilizerSim, QasmSim, StatevectorSim, AerSim, AerQasmSim]

  const Simulators: set<string> := set s | s in SimulatorList

  // Gate identifiers; the controlled-NOT and controlled-X names coincide
  const ControlNotGate := "cx"
  const ControlXGate := "cx"
  const SqrtXGate := "sx"
  const IdentityGate := "id"
  const RotationZGate := "rz"
  const PauliXGate := "x"
  const ResetGate := "reset"
  const MeasureGate := "measure"

  const ValidGateStrings: set<string> :=
    {ControlNotGate, ControlXGate, SqrtXGate, IdentityGate, RotationZGate, PauliXGate, ResetGate, MeasureGate}

  // Routing and layout methods
  const RoutingBasic := "basic"
  const RoutingSabre := "sabre"
  const RoutingLookahead := "lookahead"
  const RoutingStochastic := "stochastic"
  const RoutingHerr := "herr"
  const LayoutTrivial := "trivial"

  const RoutingMethods: seq<string> :=
    [RoutingBasic, RoutingSabre, RoutingLookahead, RoutingStochastic, RoutingHerr]

  /** No two positions of `s` hold the same string. */
  predicate Distinct(s: seq<string>)
  {
    forall i, j :: 0 <= i < j < |s| ==> s[i] != s[j]
  }

  /** A list without repetitions has as many members as elements. */
  lemma {:induction false} DistinctCardinality(s: seq<string>)
    requires Distinct(s)
    ensures |set x | x in s| == |s|
  {
    if s != [] {
      var tail := s[1..];
      assert Distinct(tail) by {
        forall i, j | 0 <= i < j < |tail| ensures tail[i] != tail[j] {
          assert tail[i] == s[i + 1] && tail[j] == s[j + 1];
        }
      }
      DistinctCardinality(tail);
      assert s[0] !in tail by {
        forall j | 0 <= j < |tail| ensures tail[j] != s[0] {
          assert tail[j] == s[j + 1];
        }
      }
      assert (set x | x in s) == {s[0]} + (set x | x in tail) by {
        assert s == [s[0]] + tail;
      }
    }
  }

  /** The gate set is exactly these seven identifiers: "cx" is listed twice. */
  lemma ValidGateStringsExactly()
    ensures ValidGateStrings == {"cx", "sx", "id", "rz", "x", "reset", "measure"}
    ensures |ValidGateStrings| == 7
  {
    var names := ["cx", "sx", "id", "rz", "x", "reset", "measure"];
    assert Distinct(names);
    DistinctCardinality(names);
    assert (set x | x in names) == ValidGateStrings;
  }

  /** An identifier outside the list, such as "zz", is rejected. */
  lemma UnknownGateRejected()
    ensures "zz" !in ValidGateStrings
  {
    ValidGateStringsExactly();
  }

  /** Every hardware name carries the IBM prefix "ibm_" or "ibmq_". */
  lemma HardwarePrefixes()
    ensures forall h :: h in Hardware ==> "ibm_" <= h || "ibmq_" <= h
  {
    forall h | h in Hardware ensures "ibm_" <= h || "ibmq_" <= h {
      var i :| 0 <= i < |HardwareList| && HardwareList[i] == h;
    }
  }

  /** There are 22 distinct hardware names. */
  lemma HardwareCount()
    ensures |Hardware| == 22
  {
    assert Distinct(HardwareList);
    DistinctCardinality(HardwareList);
  }

  /** There are 7 distinct simulator names. */
  lemma SimulatorCount()
    ensures |Simulators| == 7
  {
    assert Distinct(SimulatorList);
    DistinctCardinality(SimulatorList);
  }

  /**
   * No name is both hardware and simulator, although the simulator
   * "ibmq_qasm_simulator" carries the "ibmq_" prefix of older hardware.
   */
  lemma HardwareSimulatorsDisjoint()
    ensures Hardware !! Simulators
    ensures QasmSim in Simulators && "ibmq_" <= QasmSim
  {
    forall h | h in Hardware ensures h !in Simulators {
      var i :| 0 <= i < |HardwareList| && HardwareList[i] == h;
    }
  }

  /** The five routing method names are pairwise distinct. */
  lemma RoutingMethodsDistinct()
    ensures Distinct(RoutingMethods)
  {
  }
}
