/**
 Nested maps: a path of keys is set through a moving reference, creating maps on the way,
 and read back. The heap is related to plain trees, on which the laws are proved.
 */
module NestedMap {
  /** What a map holds: another map, a value of some other type, or nil. */
  datatype Val = MapRef(o: GoMap) | Leaf(x: int) | Nil

  class GoMap {
    var entries: map<string, Val>

    constructor ()
      ensures entries == map[]
    {
      entries := map[];
    }
  }

  type Heap = map<GoMap, map<string, Val>>

  ghost function Snapshot(nodes: set<GoMap>): (h: Heap)
    reads nodes
    ensures h.Keys == nodes && forall o :: o in nodes ==> h[o] == o.entries
  {
    map o | o in nodes :: o.entries
  }

  // ---------- Trees ----------

  datatype Tree = TMap(m: map<string, Tree>) | TLeaf(x: int) | TNil

  /** The map at a key, or the empty map that is put there. */
  function Child(t: Tree, key: string): (c: Tree)
    requires t.TMap?
    ensures c.TMap?
  {
    if key in t.m && t.m[key].TMap? then t.m[key] else TMap(map[])
  }

  function SetTree(t: Tree, fields: seq<string>, v: Tree): (r: Tree)
    requires t.TMap? && fields != []
    decreases |fields|
  {
    if |fields| == 1 then TMap(t.m[fields[0] := v])
    else TMap(t.m[fields[0] := SetTree(Child(t, fields[0]), fields[1..], v)])
  }

  /** Found, not found, or an error at the field of that index: its parent is neither a map nor nil. */
  datatype Answer<T> = Found(val: T) | Missing | NotAMap(index: nat)

  function Deeper(a: Answer<Tree>): Answer<Tree> {
    if a.NotAMap? then NotAMap(a.index + 1) else a
  }

  function GetTree(t: Tree, fields: seq<string>): Answer<Tree>
    decreases |fields|
  {
    if fields == [] then Found(t)
    else if t.TNil? then Missing
    else if t.TLeaf? then NotAMap(0)
    else if fields[0] !in t.m then Missing
    else Deeper(GetTree(t.m[fields[0]], fields[1..]))
  }

  // ---------- Heaps and trees ----------

  /** The value stands for the tree. */
  ghost predicate Represents(h: Heap, v: Val, t: Tree)
    decreases t
  {
    match t
    case TNil => v == Nil
    case TLeaf(x) => v == Leaf(x)
    case TMap(m) =>
      && v.MapRef? && v.o in h && h[v.o].Keys == m.Keys
      && forall key :: key in m ==> Represents(h, h[v.o][key], m[key])
  }

  type Labels = map<GoMap, seq<string>>

  /** Every map has one place: its label is its parent's label and its key there. So no map is shared. */
  ghost predicate Unshared(h: Heap, labels: Labels) {
    && labels.Keys == h.Keys
    && forall o, key :: o in h && key in h[o] && h[o][key].MapRef? ==>
         h[o][key].o in h && labels[h[o][key].o] == labels[o] + [key]
  }

  /** The label is not a proper prefix of the path. */
  predicate Off(place: seq<string>, fields: seq<string>) {
    |fields| <= |place| || place != fields[..|place|]
  }

  lemma {:induction false} OffBelow(place: seq<string>, key: string, fields: seq<string>)
    requires Off(place, fields)
    ensures Off(place + [key], fields)
  {
    assert (place + [key])[..|place|] == place;
    if |place| < |fields| {
      assert fields[..|place| + 1][..|place|] == fields[..|place|];
    }
  }

  /** The later heap has every old map, changed only where the label is a proper prefix of the path. */
  ghost predicate ChangedOnPath(h0: Heap, h1: Heap, labels: Labels, fields: seq<string>) {
    && labels.Keys == h0.Keys
    && forall o :: o in h0 && Off(labels[o], fields) ==> o in h1 && h1[o] == h0[o]
  }

  lemma {:induction false} RepresentsOff(h0: Heap, h1: Heap, labels: Labels, fields: seq<string>, v: Val, t: Tree)
    requires Unshared(h0, labels) && ChangedOnPath(h0, h1, labels, fields)
    requires v.MapRef? && v.o in h0 ==> Off(labels[v.o], fields)
    requires Represents(h0, v, t)
    ensures Represents(h1, v, t)
    decreases t
  {
    if t.TMap? {
      forall key | key in t.m
        ensures Represents(h1, h1[v.o][key], t.m[key])
      {
        OffBelow(labels[v.o], key, fields);
        RepresentsOff(h0, h1, labels, fields, h0[v.o][key], t.m[key]);
      }
    }
  }

  function Base(h: Heap, o: GoMap): map<string, Val> {
    if o in h then h[o] else map[]
  }

  /** The maps on the path: each is held by the one before it, and is new if that one had no map there. */
  ghost predicate Link(h0: Heap, o: GoMap, key: string, next: GoMap) {
    if key in Base(h0, o) && Base(h0, o)[key].MapRef? then next == Base(h0, o)[key].o else next !in h0
  }

  ghost predicate PathWritten(h0: Heap, h1: Heap, ms: seq<GoMap>, fields: seq<string>, value: Val) {
    && |ms| == |fields| > 0
    && (forall i :: 0 <= i < |ms| ==> ms[i] in h1)
    && (forall i :: 0 <= i < |ms| - 1 ==>
          Link(h0, ms[i], fields[i], ms[i + 1]) && h1[ms[i]] == Base(h0, ms[i])[fields[i] := MapRef(ms[i + 1])])
    && h1[ms[|ms| - 1]] == Base(h0, ms[|ms| - 1])[fields[|ms| - 1] := value]
  }

  /** The map on the path stands for the tree, or is new and the tree empty. */
  ghost predicate Stands(h0: Heap, o: GoMap, t: Tree) {
    && t.TMap?
    && (if o in h0 then Represents(h0, MapRef(o), t) else t == TMap(map[]))
  }

  lemma {:induction false} StandsNext(h0: Heap, o: GoMap, key: string, next: GoMap, t: Tree)
    requires Stands(h0, o, t) && Link(h0, o, key, next)
    ensures Stands(h0, next, Child(t, key))
  {
    if o in h0 && key in h0[o] {
      assert key in t.m && Represents(h0, h0[o][key], t.m[key]);
    }
  }

  /** The keys beside the path keep their trees. */
  lemma {:induction false} BesidePath(h0: Heap, h1: Heap, labels: Labels, fields: seq<string>, i: nat, o: GoMap,
                                      t: Tree,
                                      key: string)
    requires Unshared(h0, labels) && ChangedOnPath(h0, h1, labels, fields)
    requires i < |fields| && Stands(h0, o, t) && (o in h0 ==> labels[o] == fields[..i])
    requires key in Base(h0, o) && key != fields[i]
    ensures key in t.m && Represents(h1, Base(h0, o)[key], t.m[key])
  {
    var v := h0[o][key];
    assert Represents(h0, v, t.m[key]);
    if v.MapRef? {
      assert labels[v.o] == fields[..i] + [key];
      assert (fields[..i] + [key])[i] == key;
      if |labels[v.o]| < |fields| {
        assert fields[..i + 1][i] == fields[i];
      }
      assert Off(labels[v.o], fields);
    }
    RepresentsOff(h0, h1, labels, fields, v, t.m[key]);
  }

  /** From the last map of the path upwards, each map now stands for its updated tree. */
  lemma {:induction false} Rebuild(h0: Heap, h1: Heap, labels: Labels, ms: seq<GoMap>, fields: seq<string>, value: Val,
                                   v: Tree, i: nat, t: Tree)
    requires Unshared(h0, labels) && ChangedOnPath(h0, h1, labels, fields) && PathWritten(h0, h1, ms, fields, value)
    requires forall k :: 0 <= k < |ms| && ms[k] in h0 ==> labels[ms[k]] == fields[..k]
    requires Represents(h1, value, v)
    requires i < |fields| && Stands(h0, ms[i], t)
    ensures Represents(h1, MapRef(ms[i]), SetTree(t, fields[i..], v))
    decreases |fields| - i
  {
    var o := ms[i];
    var r := SetTree(t, fields[i..], v);
    assert Base(h0, o).Keys == t.m.Keys;
    if i < |fields| - 1 {
      assert fields[i..][1..] == fields[i + 1..];
      assert Link(h0, o, fields[i], ms[i + 1]);
      StandsNext(h0, o, fields[i], ms[i + 1], t);
      Rebuild(h0, h1, labels, ms, fields, value, v, i + 1, Child(t, fields[i]));
      assert h1[o][fields[i]] == MapRef(ms[i + 1]);
    }
    forall key | key in r.m
      ensures Represents(h1, h1[o][key], r.m[key])
    {
      if key != fields[i] {
        BesidePath(h0, h1, labels, fields, i, o, t, key);
      }
    }
  }

  // ---------- The two operations ----------

  /** The maps passed so far are linked; the last of them is still as it was. */
  ghost predicate Chain(h0: Heap, h: Heap, ms: seq<GoMap>, fields: seq<string>) {
    && 0 < |ms| <= |fields|
    && (forall k :: 0 <= k < |ms| ==> ms[k] in h)
    && (forall k :: 0 <= k < |ms| - 1 ==>
          Link(h0, ms[k], fields[k], ms[k + 1]) && h[ms[k]] == Base(h0, ms[k])[fields[k] := MapRef(ms[k + 1])])
    && h[ms[|ms| - 1]] == Base(h0, ms[|ms| - 1])
  }

  /** The state of the walk along ms: only maps on the path are changed, created or newly labelled. */
  ghost predicate Walk(h0: Heap, h: Heap, labels0: Labels, labels: Labels, ms: seq<GoMap>, fields: seq<string>) {
    Chain(h0, h, ms, fields) && Labelled(h0, h, labels0, labels, ms, fields) && OffPath(h0, h, ms)
  }

  /** The label of a map on the path is its position, and old labels are kept. */
  ghost predicate Labelled(h0: Heap, h: Heap, labels0: Labels, labels: Labels, ms: seq<GoMap>, fields: seq<string>) {
    && labels0.Keys == h0.Keys && labels.Keys == h.Keys
    && (forall o :: o in h0 ==> o in h && labels[o] == labels0[o])
    && |ms| <= |fields| && (forall k :: 0 <= k < |ms| ==> ms[k] in h && labels[ms[k]] == fields[..k])
  }

  /** The maps off the path are as they were. */
  ghost predicate OffPath(h0: Heap, h: Heap, ms: seq<GoMap>) {
    && h0.Keys <= h.Keys
    && (forall o :: o in h0 && o !in ms ==> h[o] == h0[o])
    && (forall o :: o in h && o !in h0 ==> o in ms)
  }

  lemma {:induction false} WalkOld(h0: Heap, h: Heap, labels0: Labels, labels: Labels, ms: seq<GoMap>,
                                   fields: seq<string>, next: GoMap)
    requires Unshared(h0, labels0) && Walk(h0, h, labels0, labels, ms, fields) && |ms| < |fields|
    requires fields[|ms| - 1] in h[ms[|ms| - 1]] && h[ms[|ms| - 1]][fields[|ms| - 1]] == MapRef(next)
    ensures Walk(h0, h, labels0, labels, ms + [next], fields)
  {
    var i := |ms| - 1;
    assert fields[..i + 1] == fields[..i] + [fields[i]];
    assert ms[i] in h0 && next in h0 && labels[next] == fields[..i + 1];
    assert h[ms[i]] == h[ms[i]][fields[i] := MapRef(next)];
    forall k | 0 <= k < |ms|
      ensures ms[k] != next
    {
      assert |fields[..k]| != |fields[..i + 1]|;
    }
    assert h[next] == h0[next];
    ChainOld(h0, h, ms, fields, next);
  }

  lemma {:induction false} ChainOld(h0: Heap, h: Heap, ms: seq<GoMap>, fields: seq<string>, next: GoMap)
    requires Chain(h0, h, ms, fields) && |ms| < |fields| && next in h && h[next] == Base(h0, next)
    requires Link(h0, ms[|ms| - 1], fields[|ms| - 1], next)
    requires h[ms[|ms| - 1]] == Base(h0, ms[|ms| - 1])[fields[|ms| - 1] := MapRef(next)]
    ensures Chain(h0, h, ms + [next], fields)
  {
    var ms1 := ms + [next];
    assert forall k :: 0 <= k < |ms| ==> ms1[k] == ms[k];
  }

  lemma {:induction false} WalkNew(h0: Heap, h: Heap, labels0: Labels, labels: Labels, ms: seq<GoMap>,
                                   fields: seq<string>, next: GoMap)
    requires Walk(h0, h, labels0, labels, ms, fields) && |ms| < |fields| && next !in h
    requires !(fields[|ms| - 1] in h[ms[|ms| - 1]] && h[ms[|ms| - 1]][fields[|ms| - 1]].MapRef?)
    ensures
      var m, key := ms[|ms| - 1], fields[|ms| - 1];
      Walk(h0, h[m := h[m][key := MapRef(next)]][next := map[]], labels0, labels[next := fields[..|ms|]], ms + [next],
           fields)
  {
    var i := |ms| - 1;
    var h1 := h[ms[i] := h[ms[i]][fields[i] := MapRef(next)]][next := map[]];
    ChainNew(h0, h, h1, ms, fields, next);
  }

  lemma {:induction false} ChainNew(h0: Heap, h: Heap, h1: Heap, ms: seq<GoMap>, fields: seq<string>, next: GoMap)
    requires Chain(h0, h, ms, fields) && |ms| < |fields| && next !in h && h0.Keys <= h.Keys
    requires !(fields[|ms| - 1] in h[ms[|ms| - 1]] && h[ms[|ms| - 1]][fields[|ms| - 1]].MapRef?)
    requires forall k :: 0 <= k < |ms| - 1 ==> ms[k] != ms[|ms| - 1]
    requires h1 == h[ms[|ms| - 1] := h[ms[|ms| - 1]][fields[|ms| - 1] := MapRef(next)]][next := map[]]
    ensures Chain(h0, h1, ms + [next], fields)
  {
    var ms1, i := ms + [next], |ms| - 1;
    assert forall k :: 0 <= k <= i ==> ms1[k] == ms[k];
    assert forall k :: 0 <= k < i ==> h1[ms1[k]] == h[ms[k]];
  }

  lemma {:induction false} WalkEnds(h0: Heap, h: Heap, labels0: Labels, labels: Labels, ms: seq<GoMap>,
                                    fields: seq<string>, value: Val,
                 t: Tree, v: Tree)
    requires Unshared(h0, labels0) && Walk(h0, h, labels0, labels, ms, fields) && |ms| == |fields|
    requires ms[0] in h0 && t.TMap? && Represents(h0, MapRef(ms[0]), t)
    requires Represents(h0, value, v) && (value.MapRef? ==> labels0[value.o] == fields)
    ensures
      var m := ms[|ms| - 1];
      var h1 := h[m := h[m][fields[|ms| - 1] := value]];
      Unshared(h1, labels) && Represents(h1, MapRef(ms[0]), SetTree(t, fields, v))
  {
    var i := |ms| - 1;
    var h1 := h[ms[i] := h[ms[i]][fields[i] := value]];
    forall k | 0 <= k < i
      ensures h1[ms[k]] == h[ms[k]]
    {
    }
    assert PathWritten(h0, h1, ms, fields, value);
    forall k | 0 <= k < |ms| && ms[k] in h0
      ensures !Off(labels0[ms[k]], fields)
    {
      assert labels0[ms[k]] == fields[..k];
    }
    assert forall o :: o in h0 && Off(labels0[o], fields) ==> o !in ms && h1[o] == h0[o];
    RepresentsOff(h0, h1, labels0, fields, value, v);
    Rebuild(h0, h1, labels0, ms, fields, value, v, 0, t);
    assert fields[0..] == fields;
    UnsharedAfter(h0, h1, labels0, labels, ms, fields, value);
  }

  lemma {:induction false} PlacedOnPath(h0: Heap, h1: Heap, labels0: Labels, labels: Labels, ms: seq<GoMap>,
                                        fields: seq<string>,
                                        value: Val, k: nat)
    requires PathWritten(h0, h1, ms, fields, value) && labels.Keys == h1.Keys && k < |ms|
    requires labels0.Keys == h0.Keys <= h1.Keys && forall o :: o in h0 ==> labels[o] == labels0[o]
    requires forall i :: 0 <= i < |ms| ==> labels[ms[i]] == fields[..i]
    requires value.MapRef? ==> value.o in h0 && labels0[value.o] == fields
    ensures fields[k] in h1[ms[k]]
    ensures var v := h1[ms[k]][fields[k]]; v.MapRef? ==> v.o in h1 && labels[v.o] == labels[ms[k]] + [fields[k]]
  {
    assert fields[..k] + [fields[k]] == fields[..k + 1];
    if k < |ms| - 1 {
      assert h1[ms[k]] == Base(h0, ms[k])[fields[k] := MapRef(ms[k + 1])];
    } else {
      assert fields[..k + 1] == fields;
    }
  }

  /** Beside the path a map on it holds what it held. */
  lemma {:induction false} HeldBesidePath(h0: Heap, h1: Heap, ms: seq<GoMap>, fields: seq<string>, value: Val, k: nat,
                                          key: string)
    requires PathWritten(h0, h1, ms, fields, value) && k < |ms| && key in h1[ms[k]] && key != fields[k]
    ensures ms[k] in h0 && key in h0[ms[k]] && h1[ms[k]][key] == h0[ms[k]][key]
  {
    assert k < |ms| - 1 ==> h1[ms[k]] == Base(h0, ms[k])[fields[k] := MapRef(ms[k + 1])];
    assert key in Base(h0, ms[k]);
  }

  lemma {:induction false} UnsharedAfter(h0: Heap, h1: Heap, labels0: Labels, labels: Labels, ms: seq<GoMap>,
                                         fields: seq<string>, value: Val)
    requires Unshared(h0, labels0) && PathWritten(h0, h1, ms, fields, value) && labels.Keys == h1.Keys
    requires h0.Keys <= h1.Keys && forall o :: o in h0 ==> labels[o] == labels0[o]
    requires forall k :: 0 <= k < |ms| ==> labels[ms[k]] == fields[..k]
    requires forall o :: o in h1 && o !in ms ==> o in h0 && h1[o] == h0[o]
    requires value.MapRef? ==> value.o in h0 && labels0[value.o] == fields
    ensures Unshared(h1, labels)
  {
    forall o, key | o in h1 && key in h1[o] && h1[o][key].MapRef?
      ensures h1[o][key].o in h1 && labels[h1[o][key].o] == labels[o] + [key]
    {
      if o in ms {
        var k :| 0 <= k < |ms| && ms[k] == o;
        if key == fields[k] {
          PlacedOnPath(h0, h1, labels0, labels, ms, fields, value, k);
        } else {
          HeldBesidePath(h0, h1, ms, fields, value, k, key);
        }
      }
    }
  }

  method PutEntry(m: GoMap, key: string, value: Val, ghost nodes: set<GoMap>)
    requires m in nodes
    modifies m
    ensures Snapshot(nodes) == old(Snapshot(nodes))[m := old(m.entries)[key := value]]
  {
    m.entries := m.entries[key := value];
  }

  lemma {:induction false} SnapshotExtended(nodes: set<GoMap>, o: GoMap)
    ensures Snapshot(nodes + {o}) == Snapshot(nodes)[o := o.entries]
  {
  }

  /** The body of the loop of SetNestedField: make sure there is a map at the field, and move to it. */
  method Descend(m: GoMap, field: string, ghost h0: Heap, ghost labels0: Labels, ghost nodes: set<GoMap>,
                 ghost labels: Labels, ghost ms: seq<GoMap>, ghost fields: seq<string>)
    returns (next: GoMap, ghost nodes': set<GoMap>, ghost labels': Labels)
    requires Unshared(h0, labels0) && Walk(h0, Snapshot(nodes), labels0, labels, ms, fields) && |ms| < |fields|
    requires m == ms[|ms| - 1] && field == fields[|ms| - 1]
    modifies m
    ensures nodes <= nodes' && fresh(nodes' - nodes)
    ensures Walk(h0, Snapshot(nodes'), labels0, labels', ms + [next], fields)
  {
    ghost var h := Snapshot(nodes);
    nodes', labels' := nodes, labels;
    if !(field in m.entries && m.entries[field].MapRef?) {
      var created := new GoMap();
      PutEntry(m, field, MapRef(created), nodes);
      WalkNew(h0, h, labels0, labels, ms, fields, created);
      nodes', labels' := nodes + {created}, labels[created := fields[..|ms|]];
      SnapshotExtended(nodes, created);
      assert m.entries[field] == MapRef(created);
    } else {
      WalkOld(h0, h, labels0, labels, ms, fields, m.entries[field].o);
    }
    next := m.entries[field].o;
  }

  /** A map value to be set must not be part of the tree at another place; its label says so. */
  method SetNestedField(obj: GoMap, value: Val, fields: seq<string>,
                        ghost nodes: set<GoMap>, ghost labels: Labels, ghost t: Tree, ghost v: Tree)
    returns (ghost nodes': set<GoMap>, ghost labels': Labels)
    requires fields != []
    requires obj in nodes && Unshared(Snapshot(nodes), labels) && labels[obj] == []
    requires t.TMap? && Represents(Snapshot(nodes), MapRef(obj), t)
    requires Represents(Snapshot(nodes), value, v) && (value.MapRef? ==> labels[value.o] == fields)
    modifies nodes
    ensures nodes <= nodes' && fresh(nodes' - nodes) && labels'.Keys == nodes' && labels'[obj] == []
    ensures Unshared(Snapshot(nodes'), labels')
    ensures Represents(Snapshot(nodes'), MapRef(obj), SetTree(t, fields, v))
  {
    ghost var h0 := Snapshot(nodes);
    nodes', labels' := nodes, labels;
    var m := obj;
    ghost var ms := [obj];
    for i := 0 to |fields| - 1
      invariant |ms| == i + 1 && ms[0] == obj && ms[i] == m
      invariant nodes <= nodes' && fresh(nodes' - nodes)
      invariant Walk(h0, Snapshot(nodes'), labels, labels', ms, fields)
    {
      m, nodes', labels' := Descend(m, fields[i], h0, labels, nodes', labels', ms, fields);
      ms := ms + [m];
    }
    WalkEnds(h0, Snapshot(nodes'), labels, labels', ms, fields, value, t, v);
    PutEntry(m, fields[|fields| - 1], value, nodes');
  }

  /** What a lookup on the heap answers, against the tree's answer. */
  ghost predicate Agrees(h: Heap, r: Answer<Val>, a: Answer<Tree>) {
    match a
    case Found(t) => r.Found? && Represents(h, r.val, t)
    case Missing => r == Missing
    case NotAMap(i) => r == NotAMap(i)
  }

  method GetNestedField(obj: GoMap, fields: seq<string>, ghost nodes: set<GoMap>, ghost t: Tree)
    returns (r: Answer<Val>)
    requires obj in nodes && Represents(Snapshot(nodes), MapRef(obj), t)
    ensures Agrees(Snapshot(nodes), r, GetTree(t, fields))
  {
    ghost var h := Snapshot(nodes);
    var val := MapRef(obj);
    ghost var sub := t;
    for i := 0 to |fields|
      invariant Represents(h, val, sub)
      invariant GetTree(t, fields) == Shift(GetTree(sub, fields[i..]), i)
    {
      assert fields[i..][1..] == fields[i + 1..];
      if val == Nil {
        return Missing;
      }
      if val.MapRef? {
        if fields[i] !in val.o.entries {
          return Missing;
        }
        val, sub := val.o.entries[fields[i]], sub.m[fields[i]];
      } else {
        return NotAMap(i);
      }
    }
    r := Found(val);
  }

  function Shift(a: Answer<Tree>, i: nat): Answer<Tree> {
    if a.NotAMap? then NotAMap(a.index + i) else a
  }

  // ---------- What an answer means ----------

  /** The trees that the first keys of the path lead through, from t on, each a map that holds the next. */
  ghost predicate Leads(t: Tree, path: seq<string>, ts: seq<Tree>) {
    && 0 < |ts| <= |path| + 1 && ts[0] == t
    && forall k :: 0 <= k < |ts| - 1 ==> ts[k].TMap? && path[k] in ts[k].m && ts[k + 1] == ts[k].m[path[k]]
  }

  /** The first keys of the path lead to the last of these trees, and no further. */
  ghost predicate Stops(t: Tree, path: seq<string>, ts: seq<Tree>) {
    && Leads(t, path, ts)
    && var last, i := ts[|ts| - 1], |ts| - 1;
       i == |path| || !last.TMap? || path[i] !in last.m
  }

  /** The answer for keys that lead so far: the value after all of them, an error at a value that is neither a map nor
      nil, and nothing at nil or at a map without the next key. */
  ghost predicate Means(path: seq<string>, ts: seq<Tree>, a: Answer<Tree>)
    requires 0 < |ts| <= |path| + 1
  {
    var last, i := ts[|ts| - 1], |ts| - 1;
    match a
    case Found(v) => i == |path| && last == v
    case NotAMap(index) => i < |path| && index == i && last.TLeaf?
    case Missing => i < |path| && (last.TNil? || (last.TMap? && path[i] !in last.m))
  }

  lemma {:induction false} WalkStops(t: Tree, path: seq<string>) returns (ts: seq<Tree>)
    ensures Stops(t, path, ts)
    decreases |path|
  {
    if path != [] && t.TMap? && path[0] in t.m {
      var rest := WalkStops(t.m[path[0]], path[1..]);
      ts := [t] + rest;
    } else {
      ts := [t];
    }
  }

  lemma {:induction false} StopAnswers(t: Tree, path: seq<string>, ts: seq<Tree>)
    requires Stops(t, path, ts)
    ensures Means(path, ts, GetTree(t, path))
    decreases |path|
  {
    if |ts| > 1 {
      assert Stops(ts[1], path[1..], ts[1..]);
      StopAnswers(ts[1], path[1..], ts[1..]);
    }
  }

  lemma {:induction false} OneMeaning(path: seq<string>, ts: seq<Tree>, a: Answer<Tree>, b: Answer<Tree>)
    requires 0 < |ts| <= |path| + 1 && Means(path, ts, a) && Means(path, ts, b)
    ensures a == b
  {
  }

  /** Every answer is the one that the path means, as far as its keys lead. */
  lemma {:induction false} AnswerMeans(t: Tree, path: seq<string>, a: Answer<Tree>)
    ensures a == GetTree(t, path) <==> exists ts: seq<Tree> :: Leads(t, path, ts) && Means(path, ts, a)
  {
    var ts := WalkStops(t, path);
    StopAnswers(t, path, ts);
    forall ts: seq<Tree> | Leads(t, path, ts) && Means(path, ts, a)
      ensures a == GetTree(t, path)
    {
      StopAnswers(t, path, ts);
      OneMeaning(path, ts, a, GetTree(t, path));
    }
  }

  // ---------- The laws ----------

  /** The value is found where it was set. */
  lemma {:induction false} SetThenGet(t: Tree, fields: seq<string>, v: Tree)
    requires t.TMap? && fields != []
    ensures GetTree(SetTree(t, fields, v), fields) == Found(v)
    decreases |fields|
  {
    if |fields| == 1 {
      assert GetTree(v, fields[1..]) == Found(v);
    } else {
      SetThenGet(Child(t, fields[0]), fields[1..], v);
    }
  }

  /** Paths that go on below the value read inside it. */
  lemma {:induction false} GetBelow(t: Tree, fields: seq<string>, v: Tree, rest: seq<string>)
    requires t.TMap? && fields != []
    ensures GetTree(SetTree(t, fields, v), fields + rest) == Shift(GetTree(v, rest), |fields|)
    decreases |fields|
  {
    assert (fields + rest)[1..] == fields[1..] + rest;
    if |fields| == 1 {
      assert fields[1..] + rest == rest;
    } else {
      GetBelow(Child(t, fields[0]), fields[1..], v, rest);
    }
  }

  /** The map at a path, or the empty map that a setting puts there. */
  function MapFrom(t: Tree, path: seq<string>): Tree {
    if MapAt(t, path) then GetTree(t, path).val else TMap(map[])
  }

  /** A path that ends on the way reads the map there with the rest of the path set in it. */
  lemma {:induction false} GetOnTheWay(t: Tree, p: seq<string>, v: Tree, k: nat)
    requires t.TMap? && k < |p|
    ensures MapFrom(t, p[..k]).TMap?
    ensures GetTree(SetTree(t, p, v), p[..k]) == Found(SetTree(MapFrom(t, p[..k]), p[k..], v))
    decreases |p|
  {
    if k == 0 {
      assert p[..k] == [] && p[k..] == p;
    } else {
      var c, path := Child(t, p[0]), p[..k];
      assert path[1..] == p[1..][..k - 1] && p[1..][k - 1..] == p[k..] && path[0] == p[0] && path != [];
      GetOnTheWay(c, p[1..], v, k - 1);
      if p[0] in t.m && t.m[p[0]].TMap? {
        assert MapAt(t, path) <==> MapAt(c, path[1..]);
      } else {
        NoMapBelow(t, path);
        assert MapFrom(c, path[1..]) == TMap(map[]);
      }
    }
  }

  predicate MapAt(t: Tree, path: seq<string>) {
    GetTree(t, path).Found? && GetTree(t, path).val.TMap?
  }

  /** The two paths part after k common keys. */
  predicate PartAt(p: seq<string>, q: seq<string>, k: nat) {
    k < |p| && k < |q| && p[..k] == q[..k] && p[k] != q[k]
  }

  lemma {:induction false} PartDeeper(p: seq<string>, q: seq<string>, k: nat)
    requires PartAt(p, q, k) && k > 0
    ensures p[0] == q[0] && PartAt(p[1..], q[1..], k - 1) && p[1..][..k - 1] == p[..k][1..]
  {
    assert p[0] == p[..k][0] && q[0] == q[..k][0];
    assert p[1..][..k - 1] == p[..k][1..] && q[1..][..k - 1] == q[..k][1..];
  }

  /**
   A path that leaves the set path at a node that was a map reads as before. If no map was
   there, the node is a new map without that key, and the path is missing now.
   */
  lemma {:induction false} GetBeside(t: Tree, p: seq<string>, v: Tree, q: seq<string>, k: nat)
    requires t.TMap? && PartAt(p, q, k)
    ensures GetTree(SetTree(t, p, v), q) == if MapAt(t, p[..k]) then GetTree(t, q) else Missing
    decreases |p|
  {
    if k == 0 {
      assert p[..k] == [];
    } else {
      PartDeeper(p, q, k);
      GetBeside(Child(t, p[0]), p[1..], v, q[1..], k - 1);
      assert p[..k] != [] && p[..k][0] == p[0];
      if p[0] in t.m && t.m[p[0]].TMap? {
        assert MapAt(t, p[..k]) <==> MapAt(t.m[p[0]], p[..k][1..]);
      } else {
        assert GetTree(TMap(map[]), q[1..]) == Missing;
        NoMapBelow(t, p[..k]);
      }
    }
  }

  lemma {:induction false} NoMapBelow(t: Tree, path: seq<string>)
    requires t.TMap? && path != [] && !(path[0] in t.m && t.m[path[0]].TMap?)
    ensures !MapAt(t, path)
  {
    if path[0] in t.m {
      var below := GetTree(t.m[path[0]], path[1..]);
      assert below == if |path| == 1 then Found(t.m[path[0]]) else if t.m[path[0]].TNil? then Missing else NotAMap(0);
    }
  }

  /** Beside the set path, only an answer that something is not a map can be lost with it. */
  lemma {:induction false} BesideUnchanged(t: Tree, p: seq<string>, v: Tree, q: seq<string>, k: nat)
    requires t.TMap? && PartAt(p, q, k)
    ensures GetTree(SetTree(t, p, v), q) == GetTree(t, q) <==> MapAt(t, p[..k]) || !GetTree(t, p[..k + 1]).NotAMap?
  {
    GetBeside(t, p, v, q, k);
    assert k == 0 ==> p[..k] == [];
    if k > 0 && !MapAt(t, p[..k]) {
      BrokenPath(t, p, q, k);
    }
  }

  /** Where there is no map, the rest of the path does not matter. */
  lemma {:induction false} BrokenPath(t: Tree, p: seq<string>, q: seq<string>, k: nat)
    requires t.TMap? && PartAt(p, q, k) && k > 0 && !MapAt(t, p[..k])
    ensures !GetTree(t, q).Found?
    ensures GetTree(t, q) == GetTree(t, p[..k + 1])
    decreases |p|
  {
    PartDeeper(p, q, k);
    assert p[..k + 1][1..] == p[1..][..k] != [];
    assert p[..k][0] == p[0] && p[..k + 1][0] == p[0];
    assert k == 1 ==> p[..k][1..] == [];
    if p[0] in t.m && t.m[p[0]].TMap? {
      assert MapAt(t, p[..k]) <==> MapAt(t.m[p[0]], p[..k][1..]);
      if k > 1 {
        BrokenPath(t.m[p[0]], p[1..], q[1..], k - 1);
      }
    }
  }

  /** The second of two settings of one path is all that is left. */
  lemma {:induction false} SetTwice(t: Tree, fields: seq<string>, v: Tree, w: Tree)
    requires t.TMap? && fields != []
    ensures SetTree(t, fields, v).TMap?
    ensures SetTree(SetTree(t, fields, v), fields, w) == SetTree(t, fields, w)
    decreases |fields|
  {
    if |fields| > 1 {
      SetTwice(Child(t, fields[0]), fields[1..], v, w);
      assert Child(SetTree(t, fields, v), fields[0]) == SetTree(Child(t, fields[0]), fields[1..], v);
    }
  }

  /** What a setting puts under the first key. */
  function Under(t: Tree, fields: seq<string>, v: Tree): Tree
    requires t.TMap? && fields != []
  {
    if |fields| == 1 then v else SetTree(Child(t, fields[0]), fields[1..], v)
  }

  lemma {:induction false} KeysSwap(t: Tree, p: seq<string>, v: Tree, q: seq<string>, w: Tree)
    requires t.TMap? && p != [] && q != [] && p[0] != q[0]
    ensures SetTree(SetTree(t, p, v), q, w) == SetTree(SetTree(t, q, w), p, v)
  {
    var x, y := Under(t, p, v), Under(t, q, w);
    assert SetTree(t, p, v) == TMap(t.m[p[0] := x]) && SetTree(t, q, w) == TMap(t.m[q[0] := y]);
    assert Child(TMap(t.m[p[0] := x]), q[0]) == Child(t, q[0]) && Child(TMap(t.m[q[0] := y]), p[0]) == Child(t, p[0]);
    assert t.m[p[0] := x][q[0] := y] == t.m[q[0] := y][p[0] := x];
  }

  /** Settings of two paths that part can be swapped. */
  lemma {:induction false} SetSwaps(t: Tree, p: seq<string>, v: Tree, q: seq<string>, w: Tree, k: nat)
    requires t.TMap? && PartAt(p, q, k)
    ensures SetTree(SetTree(t, p, v), q, w) == SetTree(SetTree(t, q, w), p, v)
    decreases |p|
  {
    if k == 0 {
      KeysSwap(t, p, v, q, w);
    } else {
      PartDeeper(p, q, k);
      var c, key := Child(t, p[0]), p[0];
      SetSwaps(c, p[1..], v, q[1..], w, k - 1);
      var x, y := SetTree(c, p[1..], v), SetTree(c, q[1..], w);
      assert x.TMap? && y.TMap? && SetTree(x, q[1..], w) == SetTree(y, p[1..], v);
      assert SetTree(t, p, v) == TMap(t.m[key := x]) && SetTree(t, q, w) == TMap(t.m[key := y]);
      assert Child(TMap(t.m[key := x]), key) == x && Child(TMap(t.m[key := y]), key) == y;
      var z := SetTree(x, q[1..], w);
      assert t.m[key := x][key := z] == t.m[key := y][key := z];
    }
  }
}
