/** Recognizing strict JSON in a heap of objects that may be shared or cyclic. */
module StrictJson {

  /** `Unsupported` values are undefined, functions, symbols and big integers. */
  datatype Value = Null | Text | Boolean | Number(finite: bool) | Unsupported | Object(ref: nat)

  /** A property descriptor; accessors hold no data. */
  datatype Slot = Slot(enumerable: bool, data: bool, value: Value)

  datatype Prototype = ObjectPrototype | NoPrototype | OtherPrototype

  /** An array's own keys are its `length`, the indices of its entries, other names, and symbols; of a record
      the properties with string keys are given, and its symbols. */
  datatype Node =
    | ArrayNode(length: nat, entries: map<nat, Slot>, names: set<string>, symbols: set<nat>)
    | RecordNode(prototype: Prototype, slots: seq<Slot>, symbols: set<nat>)

  type Heap = map<nat, Node>

  predicate SlotOk(slot: Slot) {
    slot.enumerable && slot.data
  }

  /** Nothing but elements and properties that hold enumerable data: an array has all of its elements and no
      other key, and a record has a plain prototype and no symbols. */
  ghost predicate Strict(node: Node) {
    match node
    case ArrayNode(length, entries, names, symbols) =>
      && (forall i :: i in entries <==> 0 <= i < length) && names == {} && symbols == {}
      && (forall i | i in entries :: entries[i].enumerable && entries[i].data)
    case RecordNode(prototype, slots, symbols) =>
      && !prototype.OtherPrototype? && symbols == {}
      && (forall slot | slot in slots :: slot.enumerable && slot.data)
  }

  /** What a value must be by itself, apart from the values it holds. */
  ghost predicate Admissible(heap: Heap, v: Value) {
    match v
    case Number(finite) => finite
    case Object(r) => r in heap && Strict(heap[r])
    case Unsupported => false
    case _ => true
  }

  // ---------- The tests of a node ----------

  /** The tests before the loop: an array's keys are only counted. */
  predicate ShapeOk(node: Node) {
    match node
    case ArrayNode(length, entries, names, symbols) =>
      |entries| + |names| + |symbols| + 1 == length + 1 && symbols == {}
    case RecordNode(prototype, _, symbols) => (prototype.ObjectPrototype? || prototype.NoPrototype?) && symbols == {}
  }

  /** An enumerable data property is there at position `i`. */
  predicate HasSlot(node: Node, i: nat) {
    match node
    case ArrayNode(_, entries, _, _) => i in entries && SlotOk(entries[i])
    case RecordNode(_, slots, _) => i < |slots| && SlotOk(slots[i])
  }

  function Width(node: Node): nat {
    match node
    case ArrayNode(length, _, _, _) => length
    case RecordNode(_, slots, _) => |slots|
  }

  function UpTo(n: nat): (s: set<nat>)
    ensures |s| == n && forall i :: i in s <==> 0 <= i < n
  {
    if n == 0 then {} else UpTo(n - 1) + {n - 1}
  }

  lemma SameSize(a: set<nat>, b: set<nat>)
    requires a <= b
    ensures |a| <= |b| && (|a| == |b| ==> a == b)
  {
    assert |b - a| == |b| - |a|;
  }

  /** Counting the keys and finding every element leaves no room for any other key. */
  lemma TestsMeanStrict(node: Node)
    ensures Strict(node) <==> ShapeOk(node) && forall i | 0 <= i < Width(node) :: HasSlot(node, i)
  {
    if node.ArrayNode? {
      var indices := UpTo(node.length);
      if forall i | 0 <= i < node.length :: HasSlot(node, i) {
        assert forall i | i in indices :: HasSlot(node, i);
        SameSize(indices, node.entries.Keys);
      }
      assert |node.entries| == |node.entries.Keys|;
      if Strict(node) {
        assert node.entries.Keys == indices;
      }
    } else {
      assert forall i | 0 <= i < |node.slots| :: node.slots[i] in node.slots;
      if forall i | 0 <= i < Width(node) :: HasSlot(node, i) {
        forall slot | slot in node.slots ensures slot.enumerable && slot.data {
          var i :| 0 <= i < |node.slots| && node.slots[i] == slot;
          assert HasSlot(node, i);
        }
      }
    }
  }

  function Children(heap: Heap, v: Value): seq<Value> {
    if !v.Object? || v.ref !in heap then [] else
    match heap[v.ref]
    case ArrayNode(length, entries, _, _) => seq(length, i => if i in entries then entries[i].value else Unsupported)
    case RecordNode(_, slots, _) => seq(|slots|, i requires 0 <= i < |slots| => slots[i].value)
  }

  /** The value at the end of a path of child positions. */
  function At(heap: Heap, v: Value, path: seq<nat>): (end: seq<Value>)
    ensures |end| <= 1
    decreases |path|
  {
    if path == [] then [v]
    else if path[0] < |Children(heap, v)| then At(heap, Children(heap, v)[path[0]], path[1..])
    else []
  }

  const MAX_DEPTH := 512

  ghost predicate Leads(heap: Heap, v: Value, path: seq<nat>, end: Value) {
    At(heap, v, path) == [end]
  }

  /** Every path from `v` has at most `MAX_DEPTH - depth` edges and ends in an admissible value. */
  ghost predicate Within(heap: Heap, v: Value, depth: nat) {
    forall path, end | Leads(heap, v, path, end) :: depth + |path| <= MAX_DEPTH && Admissible(heap, end)
  }

  lemma WithinStep(heap: Heap, v: Value, depth: nat)
    ensures Within(heap, v, depth) <==>
            && depth <= MAX_DEPTH && Admissible(heap, v)
            && forall i | 0 <= i < |Children(heap, v)| :: Within(heap, Children(heap, v)[i], depth + 1)
  {
    var children := Children(heap, v);
    if Within(heap, v, depth) {
      assert Leads(heap, v, [], v);
      forall i, path, end | 0 <= i < |children| && Leads(heap, children[i], path, end)
        ensures depth + 1 + |path| <= MAX_DEPTH && Admissible(heap, end)
      {
        assert ([i] + path)[1..] == path;
        assert Leads(heap, v, [i] + path, end);
      }
    }
    if depth <= MAX_DEPTH && Admissible(heap, v) &&
       forall i | 0 <= i < |children| :: Within(heap, children[i], depth + 1) {
      forall path, end | Leads(heap, v, path, end) ensures depth + |path| <= MAX_DEPTH && Admissible(heap, end) {
        if path != [] {
          assert Leads(heap, children[path[0]], path[1..], end);
        }
      }
    }
  }

  lemma {:induction false} LeadsOn(heap: Heap, v: Value, a: seq<nat>, mid: Value, b: seq<nat>, end: Value)
    requires Leads(heap, v, a, mid) && Leads(heap, mid, b, end)
    ensures Leads(heap, v, a + b, end)
    decreases |a|
  {
    if a == [] {
      assert a + b == b;
    } else {
      assert (a + b)[1..] == a[1..] + b;
      LeadsOn(heap, Children(heap, v)[a[0]], a[1..], mid, b, end);
    }
  }

  function Repeated(path: seq<nat>, n: nat): seq<nat> {
    if n == 0 then [] else path + Repeated(path, n - 1)
  }

  lemma {:induction false} AroundTheCycle(heap: Heap, v: Value, path: seq<nat>, n: nat)
    requires Leads(heap, v, path, v) && path != []
    ensures Leads(heap, v, Repeated(path, n), v) && |Repeated(path, n)| >= n
  {
    if n > 0 {
      AroundTheCycle(heap, v, path, n - 1);
      LeadsOn(heap, v, path, v, Repeated(path, n - 1), v);
    }
  }

  /** A value on a cycle has paths of any length, so the depth limit alone would refuse it. */
  lemma CyclesAreTooDeep(heap: Heap, v: Value, path: seq<nat>, depth: nat)
    requires Leads(heap, v, path, v) && path != []
    ensures !Within(heap, v, depth)
  {
    AroundTheCycle(heap, v, path, MAX_DEPTH + 1);
  }

  /** Every ancestor is above `v` on some path. */
  ghost predicate Above(heap: Heap, ancestors: set<nat>, v: Value) {
    forall r | r in ancestors :: exists path :: path != [] && Leads(heap, Object(r), path, v)
  }

  lemma AncestorIsTooDeep(heap: Heap, ancestors: set<nat>, v: Value, depth: nat)
    requires Above(heap, ancestors, v) && v.Object? && v.ref in ancestors
    ensures !Within(heap, v, depth)
  {
    var path :| path != [] && Leads(heap, Object(v.ref), path, v);
    CyclesAreTooDeep(heap, v, path, depth);
  }

  lemma AboveChild(heap: Heap, ancestors: set<nat>, v: Value, i: nat)
    requires Above(heap, ancestors, v) && v.Object? && i < |Children(heap, v)|
    ensures Above(heap, ancestors + {v.ref}, Children(heap, v)[i])
  {
    var child := Children(heap, v)[i];
    assert Leads(heap, child, [], child);
    assert [i][1..] == [];
    assert Leads(heap, v, [i], child);
    forall r | r in ancestors + {v.ref} ensures exists path :: path != [] && Leads(heap, Object(r), path, child) {
      if r in ancestors {
        var path :| path != [] && Leads(heap, Object(r), path, v);
        LeadsOn(heap, Object(r), path, v, [i], child);
        assert path + [i] != [];
      }
    }
  }

  class Checker {
    const heap: Heap
    var ancestors: set<nat>

    constructor (heap: Heap)
      ensures this.heap == heap && ancestors == {}
    {
      this.heap := heap;
      ancestors := {};
    }

    /** The ancestors are as before, and never decide the answer. */
    method Check(value: Value, depth: nat) returns (ok: bool)
      requires depth <= MAX_DEPTH + 1 && Above(heap, ancestors, value)
      modifies this
      ensures ancestors == old(ancestors)
      ensures ok == Within(heap, value, depth)
      decreases MAX_DEPTH + 1 - depth, 1
    {
      WithinStep(heap, value, depth);
      hide Within, Strict;
      if depth > MAX_DEPTH {
        return false;
      }
      match value
      case Null => return true;
      case Text => return true;
      case Boolean => return true;
      case Number(finite) => return finite;
      case Unsupported => return false;
      case Object(r) =>
        if r !in heap {
          return false;
        }
        TestsMeanStrict(heap[r]);
        if !ShapeOk(heap[r]) {
          return false;
        }
        if r in ancestors {
          AncestorIsTooDeep(heap, ancestors, value, depth);
          return false;
        }
        ancestors := ancestors + {r};
        ok := CheckSlots(value, depth);
        ancestors := ancestors - {r};
    }

    /** The loop over array entries or record properties. */
    method CheckSlots(value: Value, depth: nat) returns (ok: bool)
      requires depth <= MAX_DEPTH && value.Object? && value.ref in heap
      requires value.ref in ancestors && Above(heap, ancestors - {value.ref}, value)
      modifies this
      ensures ancestors == old(ancestors)
      ensures ok == forall i | 0 <= i < Width(heap[value.ref]) ::
                HasSlot(heap[value.ref], i) && Within(heap, Children(heap, value)[i], depth + 1)
      decreases MAX_DEPTH + 1 - depth, 0
    {
      for i := 0 to Width(heap[value.ref])
        invariant ancestors == old(ancestors)
        invariant forall j | 0 <= j < i :: HasSlot(heap[value.ref], j) && Within(heap, Children(heap, value)[j], depth + 1)
      {
        if !HasSlot(heap[value.ref], i) {
          return false;
        }
        AboveChild(heap, ancestors - {value.ref}, value, i);
        assert ancestors - {value.ref} + {value.ref} == ancestors;
        var inner := Check(Children(heap, value)[i], depth + 1);
        if !inner {
          return false;
        }
      }
      return true;
    }
  }

  /** A value is JSON exactly when every path from it has at most 512 edges and ends in an
      admissible value; in particular nothing on or above a cycle is. */
  method IsJsonValue(heap: Heap, value: Value) returns (ok: bool)
    ensures ok <==> forall path, end | Leads(heap, value, path, end) :: |path| <= 512 && Admissible(heap, end)
  {
    var checker := new Checker(heap);
    ok := checker.Check(value, 0);
    assert Within(heap, value, 0) <==>
      forall path, end | Leads(heap, value, path, end) :: 0 + |path| <= MAX_DEPTH && Admissible(heap, end);
  }
}
