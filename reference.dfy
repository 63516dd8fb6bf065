/**
 * The named reference cells BAROQUE keeps its settings, circuits and
 * backends in, and the fifteen process-wide slots built from them.
 */
module References {

  /**
   * The Python values a reference holds: None, a string, a boolean, or a
   * foreign object (a circuit, an IBM interface container, a backend)
   * identified only by a number.
   */
  datatype Value = PyNone | Str(s: string) | Bool(b: bool) | Object(id: nat)

  /** Python's `v is None or v == ""`: no other value compares equal to "". */
  predicate IsBlank(v: Value)
  {
    v == PyNone || v == Str("")
  }

  /** Python truthiness of a value. */
  predicate Truthy(v: Value)
  {
    match v
    case PyNone => false
    case Str(s) => s != ""
    case Bool(b) => b
    case Object(_) => true
  }

  /** A mutable cell holding a value and a display name. */
  class Reference {
    var val: Value
    var name: string

    constructor (val: Value, name: string := "")
      ensures this.val == val && this.name == name
    {
      this.val := val;
      this.name := name;
    }

    function GetName(): string
      reads this
    {
      name
    }

    function Get(): Value
      reads this
    {
      val
    }

    /** Replaces value and name together; the name falls back to "". */
    method Set(val: Value, name: string := "")
      modifies this
      ensures Get() == val && GetName() == name
      ensures IsEmpty() <==> val == PyNone || val == Str("")
    {
      this.val := val;
      this.name := name;
    }

    predicate IsEmpty()
      reads this
    {
      IsBlank(val)
    }
  }

  /**
   * Only None and the empty string are empty: False, a blank string and
   * any foreign object are not.
   */
  lemma EmptyValues(s: string, b: bool, id: nat)
    ensures IsBlank(PyNone) && IsBlank(Str(""))
    ensures IsBlank(Str(s)) <==> s == ""
    ensures !IsBlank(Bool(b)) && !IsBlank(Object(id))
  {
  }

  /** The process-wide references, one per setting. */
  datatype Slot =
    | InputCircuit | CompareCircuit | ApiKey
    | InputFile | CompareFile | OutputFile
    | BackendStrInput | BackendStrCompare
    | RoutingInput | RoutingCompare
    | ContainerInput | ContainerCompare
    | BackendInput | BackendCompare
    | ShowBackends

  /** The contents of one reference. */
  datatype Cell = Cell(val: Value, name: string)

  /** The contents of slot `k` as the program starts. */
  function InitialCell(k: Slot): Cell
  {
    if k == ShowBackends then Cell(Bool(false), "") else Cell(PyNone, "")
  }

  /** The slots as the program starts: all None, except the show-backends flag. */
  function InitialCells(): (m: map<Slot, Cell>)
    ensures forall k: Slot :: k in m
  {
    map k: Slot :: InitialCell(k)
  }

  /** Every slot, once, in the order the source declares them. */
  const AllSlots: seq<Slot> :=
    [InputCircuit, CompareCircuit, ApiKey, InputFile, CompareFile, OutputFile,
     BackendStrInput, BackendStrCompare, RoutingInput, RoutingCompare,
     ContainerInput, ContainerCompare, BackendInput, BackendCompare, ShowBackends]

  /** The position of slot `k` in `AllSlots`. */
  function SlotIndex(k: Slot): (n: nat)
    ensures n < |AllSlots| && AllSlots[n] == k
  {
    match k
    case InputCircuit => 0
    case CompareCircuit => 1
    case ApiKey => 2
    case InputFile => 3
    case CompareFile => 4
    case OutputFile => 5
    case BackendStrInput => 6
    case BackendStrCompare => 7
    case RoutingInput => 8
    case RoutingCompare => 9
    case ContainerInput => 10
    case ContainerCompare => 11
    case BackendInput => 12
    case BackendCompare => 13
    case ShowBackends => 14
  }

  /** Every position of `AllSlots` holds the slot whose index it is. */
  lemma SlotIndexAt(i: nat)
    requires i < |AllSlots|
    ensures SlotIndex(AllSlots[i]) == i
  {
  }

  /** No two slots share a reference. */
  ghost predicate Injective(m: map<Slot, Reference>)
  {
    forall k, l :: k in m && l in m && k != l ==> m[k] != m[l]
  }

  /**
   * The first `i` slots of `AllSlots`, and no others, are bound, each to
   * its own reference holding the slot's initial value and an empty name.
   */
  ghost predicate Built(m: map<Slot, Reference>, i: nat)
    reads m.Values
  {
    && Injective(m)
    && (forall k :: k in m <==> SlotIndex(k) < i)
    && (forall k :: k in m ==> m[k].val == InitialCell(k).val && m[k].name == "")
  }

  /** Binds the next slot of `AllSlots` to a new reference holding its initial value. */
  method AddSlot(m: map<Slot, Reference>, i: nat) returns (m': map<Slot, Reference>)
    requires i < |AllSlots| && Built(m, i)
    ensures Built(m', i + 1)
    ensures m'.Keys == m.Keys + {AllSlots[i]} && fresh(m'[AllSlots[i]])
  {
    var k := AllSlots[i];
    SlotIndexAt(i);
    var r := new Reference(InitialCell(k).val);
    m' := m[k := r];
  }

  /** Once every slot is bound, the bindings hold the initial cells. */
  lemma BuiltAll(m: map<Slot, Reference>)
    requires Built(m, |AllSlots|)
    ensures forall k: Slot :: k in m && Cell(m[k].val, m[k].name) == InitialCell(k)
  {
  }

  /** All slots, each its own reference. */
  class Settings {
    const cells: map<Slot, Reference>

    ghost predicate Valid()
    {
      (forall k: Slot :: k in cells) && Injective(cells)
    }

    /** The value and name held by every slot. */
    ghost function Snapshot(): (m: map<Slot, Cell>)
      requires Valid()
      reads cells.Values
      ensures forall k: Slot :: k in m
    {
      map k: Slot :: Cell(cells[k].val, cells[k].name)
    }

    constructor ()
      ensures Valid() && Snapshot() == InitialCells()
    {
      var m := map[];
      for i := 0 to |AllSlots|
        invariant Built(m, i)
      {
        m := AddSlot(m, i);
      }
      BuiltAll(m);
      cells := m;
    }

    /** The value of slot `k`. */
    function Get(k: Slot): (v: Value)
      requires Valid()
      reads cells.Values
      ensures v == Snapshot()[k].val
    {
      cells[k].Get()
    }

    /** `slot.set(v)`: the slot takes `v` and an empty name; no other slot changes. */
    method Assign(k: Slot, v: Value)
      requires Valid()
      modifies cells[k]
      ensures Snapshot() == old(Snapshot())[k := Cell(v, "")]
    {
      cells[k].Set(v);
    }
  }
}
