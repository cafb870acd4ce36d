/** The JSON-safety checker: recursion over an object graph that may share objects and may
    contain cycles, with one mutable set of the containers being visited. */
module JsonState {

  /** A Python value: scalars, floats that may be infinite or not a number, references to
      containers, and everything else. */
  datatype Value = Null | Boolean(b: bool) | Text(s: string) | Integer(i: int) | Float(finite: bool) | Ref(id: nat) | Foreign

  datatype MapKey = TextKey(s: string) | OtherKey

  datatype Container = List(items: seq<Value>) | Dict(entries: seq<(MapKey, Value)>)

  /** Containers by identity. */
  type Heap = map<nat, Container>

  function Children(c: Container): seq<Value> {
    match c
    case List(items) => items
    case Dict(entries) => seq(|entries|, i requires 0 <= i < |entries| => entries[i].1)
  }

  /** Every reference leads to a container. */
  predicate Closed(heap: Heap) {
    forall id, i :: id in heap && 0 <= i < |Children(heap[id])| && Children(heap[id])[i].Ref? ==> Children(heap[id])[i].id in heap
  }

  predicate InHeap(heap: Heap, v: Value) { v.Ref? ==> v.id in heap }

  // ---------- What is to be accepted ----------

  /** Containers, or scalars JSON can hold. */
  predicate ScalarOk(v: Value) {
    v.Ref? || v.Null? || v.Boolean? || v.Text? || v.Integer? || (v.Float? && v.finite)
  }

  /** The container's own keys and scalar members are fine. */
  predicate LocallyOk(c: Container) {
    && (c.Dict? ==> forall i :: 0 <= i < |c.entries| ==> c.entries[i].0.TextKey?)
    && forall i :: 0 <= i < |Children(c)| ==> ScalarOk(Children(c)[i])
  }

  /** A path of containers, each a member of the one before, starting at the value. */
  ghost predicate Walk(heap: Heap, v: Value, p: seq<nat>) {
    && p != [] && v == Ref(p[0])
    && (forall k :: 0 <= k < |p| ==> p[k] in heap)
    && forall k :: 0 <= k < |p| - 1 ==> Ref(p[k + 1]) in Children(heap[p[k]])
  }

  ghost predicate Simple(p: seq<nat>) {
    forall i, j :: 0 <= i < j < |p| ==> p[i] != p[j]
  }

  /** No path from the value meets a container twice, and all it reaches is locally fine. */
  ghost predicate JsonSafe(heap: Heap, v: Value) {
    && ScalarOk(v)
    && forall p :: Walk(heap, v, p) ==> Simple(p) && LocallyOk(heap[p[|p| - 1]])
  }

  /** The same, with paths that also stay out of `active`. */
  ghost predicate SafeBeyond(heap: Heap, v: Value, active: set<nat>) {
    && ScalarOk(v)
    && forall p :: Walk(heap, v, p) ==>
         Simple(p) && (forall k :: 0 <= k < |p| ==> p[k] !in active) && LocallyOk(heap[p[|p| - 1]])
  }

  ghost predicate WalksTo(heap: Heap, v: Value, p: seq<nat>, id: nat) {
    Walk(heap, v, p) && p[|p| - 1] == id
  }

  /** The container is reachable from the value. */
  ghost predicate Reaches(heap: Heap, v: Value, id: nat) {
    exists p :: WalksTo(heap, v, p, id)
  }

  /** The container is reachable from itself by at least one step. */
  ghost predicate OnCycle(heap: Heap, id: nat) {
    exists p :: WalksTo(heap, Ref(id), p, id) && |p| > 1
  }

  lemma CutWalk(heap: Heap, v: Value, p: seq<nat>, i: nat, j: nat)
    requires Walk(heap, v, p) && i < j < |p| && p[i] == p[j]
    ensures Reaches(heap, v, p[i]) && OnCycle(heap, p[i])
  {
    assert WalksTo(heap, v, p[..i + 1], p[i]);
    var c := p[i..j + 1];
    forall k | 0 <= k < |c| - 1 ensures Ref(c[k + 1]) in Children(heap[c[k]]) {
      assert c[k] == p[i + k] && c[k + 1] == p[i + k + 1];
    }
    assert WalksTo(heap, Ref(p[i]), c, p[i]);
  }

  lemma JoinWalks(heap: Heap, v: Value, p: seq<nat>, c: seq<nat>)
    requires Walk(heap, v, p) && Walk(heap, Ref(p[|p| - 1]), c)
    ensures Walk(heap, v, p + c[1..])
  {
  }

  /** All walks are simple exactly when no reachable container is reachable from itself. */
  lemma SimpleMeansAcyclic(heap: Heap, v: Value)
    ensures (forall p :: Walk(heap, v, p) ==> Simple(p)) <==> !exists id :: Reaches(heap, v, id) && OnCycle(heap, id)
  {
    forall p | Walk(heap, v, p) && !Simple(p) ensures exists id :: Reaches(heap, v, id) && OnCycle(heap, id) {
      var i, j :| 0 <= i < j < |p| && p[i] == p[j];
      CutWalk(heap, v, p, i, j);
    }
    if id :| Reaches(heap, v, id) && OnCycle(heap, id) {
      var p :| WalksTo(heap, v, p, id);
      var c :| WalksTo(heap, Ref(id), c, id) && |c| > 1;
      JoinWalks(heap, v, p, c);
      var w := p + c[1..];
      assert w[|p| - 1] == w[|w| - 1];
      assert !Simple(w);
    }
  }

  // ---------- What the recursion computes ----------

  predicate KeysOk(c: Container) {
    c.Dict? ==> forall i :: 0 <= i < |c.entries| ==> c.entries[i].0.TextKey?
  }

  ghost predicate Passes(heap: Heap, v: Value, active: set<nat>)
    requires Closed(heap) && InHeap(heap, v)
    decreases heap.Keys - active
  {
    if !v.Ref? then ScalarOk(v)
    else
      && v.id !in active && KeysOk(heap[v.id])
      && forall i :: 0 <= i < |Children(heap[v.id])| ==> Passes(heap, Children(heap[v.id])[i], active + {v.id})
  }

  lemma {:induction false} PassesIsSafe(heap: Heap, v: Value, active: set<nat>)
    requires Closed(heap) && InHeap(heap, v)
    ensures Passes(heap, v, active) <==> SafeBeyond(heap, v, active)
    decreases heap.Keys - active
  {
    if v.Ref? && v.id !in active {
      var kids := Children(heap[v.id]);
      forall i | 0 <= i < |kids| ensures Passes(heap, kids[i], active + {v.id}) <==> SafeBeyond(heap, kids[i], active + {v.id}) {
        PassesIsSafe(heap, kids[i], active + {v.id});
      }
      if KeysOk(heap[v.id]) && (forall i :: 0 <= i < |kids| ==> SafeBeyond(heap, kids[i], active + {v.id})) {
        MembersSafe(heap, v, active);
      }
      if SafeBeyond(heap, v, active) {
        SafeMembers(heap, v, active);
      }
    } else if v.Ref? {
      assert Walk(heap, v, [v.id]);
    }
  }

  /** Safe members under an inactive container make it safe. */
  lemma MembersSafe(heap: Heap, v: Value, active: set<nat>)
    requires Closed(heap) && v.Ref? && v.id in heap && v.id !in active && KeysOk(heap[v.id])
    requires forall i :: 0 <= i < |Children(heap[v.id])| ==> SafeBeyond(heap, Children(heap[v.id])[i], active + {v.id})
    ensures SafeBeyond(heap, v, active)
  {
    var kids := Children(heap[v.id]);
    forall p | Walk(heap, v, p)
      ensures Simple(p) && (forall k :: 0 <= k < |p| ==> p[k] !in active) && LocallyOk(heap[p[|p| - 1]])
    {
      if |p| > 1 {
        assert Ref(p[0 + 1]) in Children(heap[p[0]]);
        var i :| 0 <= i < |kids| && kids[i] == Ref(p[1]);
        assert Walk(heap, kids[i], p[1..]);
        assert forall k :: 0 < k < |p| ==> p[k] == p[1..][k - 1];
      }
    }
  }

  /** A safe container has safe members. */
  lemma SafeMembers(heap: Heap, v: Value, active: set<nat>)
    requires Closed(heap) && v.Ref? && v.id in heap && SafeBeyond(heap, v, active)
    ensures v.id !in active && KeysOk(heap[v.id])
    ensures forall i :: 0 <= i < |Children(heap[v.id])| ==> SafeBeyond(heap, Children(heap[v.id])[i], active + {v.id})
  {
    var kids := Children(heap[v.id]);
    assert Walk(heap, v, [v.id]);
    forall i | 0 <= i < |kids| ensures SafeBeyond(heap, kids[i], active + {v.id}) {
      forall q | Walk(heap, kids[i], q)
        ensures Simple(q) && (forall k :: 0 <= k < |q| ==> q[k] !in active + {v.id}) && LocallyOk(heap[q[|q| - 1]])
      {
        var p := [v.id] + q;
        assert Walk(heap, v, p);
        assert forall k :: 0 <= k < |q| ==> q[k] == p[k + 1];
      }
    }
  }

  /** Neither a container nor a scalar that JSON has: an infinite float, not a number, or an object
      of any other kind. */
  predicate Unrepresentable(v: Value) {
    v.Foreign? || (v.Float? && !v.finite)
  }

  /** Accepted from the start means: no reachable container is reachable from itself, and
      everything reachable is fine; sharing without a cycle is allowed. */
  lemma PassesExactly(heap: Heap, v: Value)
    requires Closed(heap) && InHeap(heap, v)
    ensures Passes(heap, v, {}) <==> JsonSafe(heap, v)
    ensures JsonSafe(heap, v) <==>
            && !Unrepresentable(v)
            && !(exists id :: Reaches(heap, v, id) && OnCycle(heap, id))
            && (forall id, i :: Reaches(heap, v, id) && 0 <= i < |Children(heap[id])| ==> !Unrepresentable(Children(heap[id])[i]))
            && forall id, i :: Reaches(heap, v, id) && heap[id].Dict? && 0 <= i < |heap[id].entries| ==> !heap[id].entries[i].0.OtherKey?
  {
    assert forall x: Value :: ScalarOk(x) <==> !Unrepresentable(x);
    PassesIsSafe(heap, v, {});
    SimpleMeansAcyclic(heap, v);
    forall id | Reaches(heap, v, id) && JsonSafe(heap, v) ensures LocallyOk(heap[id]) {
      var p :| WalksTo(heap, v, p, id);
    }
    forall p | Walk(heap, v, p) ensures Reaches(heap, v, p[|p| - 1]) {
      assert WalksTo(heap, v, p, p[|p| - 1]);
    }
  }

  // ---------- The checker ----------

  class Checker {
    var active: set<nat>

    constructor ()
      ensures active == {}
    {
      active := {};
    }

    /** `_enter_container`. */
    method Enter(id: nat) returns (ok: bool)
      modifies this
      ensures ok == (id !in old(active))
      ensures active == old(active) + {id}
    {
      if id in active {
        assert active == active + {id};
        return false;
      }
      active := active + {id};
      ok := true;
    }

    /** `_validate_json_safe`: it ends on every graph, and leaves the active set as it was
        whether it accepts or rejects. */
    method Validate(heap: Heap, v: Value) returns (ok: bool)
      requires Closed(heap) && InHeap(heap, v)
      modifies this
      ensures active == old(active)
      ensures ok <==> Passes(heap, v, old(active))
      decreases heap.Keys - active
    {
      if !v.Ref? {
        return ScalarOk(v);
      }
      var entered := Enter(v.id);
      if !entered {
        assert active == old(active);
        return false;
      }
      var c := heap[v.id];
      var kids := Children(c);
      ok := true;
      var i := 0;
      while i < |kids| && ok
        invariant 0 <= i <= |kids| && active == old(active) + {v.id}
        invariant ok ==> forall j :: 0 <= j < i ==> Passes(heap, kids[j], old(active) + {v.id})
        invariant ok && c.Dict? ==> forall j :: 0 <= j < i ==> c.entries[j].0.TextKey?
        invariant !ok ==> !Passes(heap, v, old(active))
      {
        if c.Dict? && !c.entries[i].0.TextKey? {
          ok := false;
        } else {
          ok := Validate(heap, kids[i]);
        }
        i := i + 1;
      }
      active := active - {v.id};
    }
  }

  /** `validate_json_safe`: accepted exactly when JSON can hold the value. */
  method ValidateJsonSafe(heap: Heap, v: Value) returns (ok: bool)
    requires Closed(heap) && InHeap(heap, v)
    ensures ok <==> JsonSafe(heap, v)
    ensures !v.Ref? ==> (ok <==> !Unrepresentable(v))
  {
    var checker := new Checker();
    ok := checker.Validate(heap, v);
    PassesExactly(heap, v);
  }

  /** `validate_json_object`: the same, for a dictionary only. */
  method ValidateJsonObject(heap: Heap, v: Value) returns (ok: bool)
    requires Closed(heap) && InHeap(heap, v)
    ensures ok <==> v.Ref? && heap[v.id].Dict? && JsonSafe(heap, v)
  {
    if !v.Ref? || !heap[v.id].Dict? {
      return false;
    }
    ok := ValidateJsonSafe(heap, v);
  }
}
