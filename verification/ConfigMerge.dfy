/** The deep merge of an environment's configuration into the default one. */
module ConfigMerge {
  import opened Options

  /** A configuration without null and undefined values. An array is an object whose keys are indices. */
  datatype Value = Leaf(text: string) | Object(fields: map<string, Value>)

  type Path = seq<string>

  /** What the merge is meant to be. */
  function Merge(target: Value, source: Value): Value
    decreases source
  {
    if target.Leaf? || source.Leaf? then source
    else Object(map key | key in target.fields.Keys + source.fields.Keys ::
                  if key !in source.fields then target.fields[key]
                  else if key in target.fields then Merge(target.fields[key], source.fields[key])
                  else source.fields[key])
  }

  // ---------------------------------------------------------------- objects in memory

  /** What a variable holds: a leaf, or the address of an object. */
  datatype Ref = Text(text: string) | At(addr: nat)

  type Heap = map<nat, map<string, Ref>>

  /** In the heap, v stands for the configuration. */
  ghost predicate Rep(h: Heap, v: Ref, value: Value)
    decreases value
  {
    match value
    case Leaf(text) => v == Text(text)
    case Object(fields) =>
      && v.At? && v.addr in h && h[v.addr].Keys == fields.Keys
      && forall k :: k in fields ==> Rep(h, h[v.addr][k], fields[k])
  }

  /** The addresses of the objects that make up the configuration. */
  ghost function Foot(h: Heap, v: Ref, value: Value): set<nat>
    requires Rep(h, v, value)
    decreases value
  {
    match value
    case Leaf(_) => {}
    case Object(fields) => {v.addr} + set k, a | k in fields && a in Foot(h, h[v.addr][k], fields[k]) :: a
  }

  /** No object is shared within the configuration. */
  ghost predicate Tree(h: Heap, v: Ref, value: Value)
    requires Rep(h, v, value)
    decreases value
  {
    match value
    case Leaf(_) => true
    case Object(fields) =>
      && (forall k :: k in fields ==>
            Tree(h, h[v.addr][k], fields[k]) && v.addr !in Foot(h, h[v.addr][k], fields[k]))
      && forall k, l :: k in fields && l in fields && k != l ==>
           Foot(h, h[v.addr][k], fields[k]) !! Foot(h, h[v.addr][l], fields[l])
  }

  ghost predicate Unchanged(h: Heap, h': Heap, addrs: set<nat>) {
    forall a :: a in addrs ==> a in h && a in h' && h'[a] == h[a]
  }

  lemma ChildFoot(h: Heap, v: Ref, fields: map<string, Value>, k: string)
    requires Rep(h, v, Object(fields)) && k in fields
    ensures Foot(h, h[v.addr][k], fields[k]) <= Foot(h, v, Object(fields)) && v.addr in Foot(h, v, Object(fields))
  {
  }

  /** What is unchanged stands for the same configuration. */
  lemma {:induction false} Frame(h: Heap, h': Heap, v: Ref, value: Value)
    requires Rep(h, v, value) && Unchanged(h, h', Foot(h, v, value))
    ensures Rep(h', v, value) && Foot(h', v, value) == Foot(h, v, value)
    ensures Tree(h, v, value) ==> Tree(h', v, value)
    decreases value
  {
    if value.Object? {
      forall k | k in value.fields
        ensures Rep(h', h'[v.addr][k], value.fields[k])
        ensures Foot(h', h'[v.addr][k], value.fields[k]) == Foot(h, h[v.addr][k], value.fields[k])
        ensures Tree(h, h[v.addr][k], value.fields[k]) ==> Tree(h', h'[v.addr][k], value.fields[k])
      {
        ChildFoot(h, v, value.fields, k);
        Frame(h, h', h[v.addr][k], value.fields[k]);
      }
    }
  }

  // ---------------------------------------------------------------- merging in place

  /** A call on two objects: the heap it starts from, the two addresses and what they stand for. */
  datatype Call = Call(h: Heap, ta: nat, sa: nat, t: map<string, Value>, s: map<string, Value>)

  ghost predicate Apart(c: Call) {
    && Rep(c.h, At(c.ta), Object(c.t)) && Tree(c.h, At(c.ta), Object(c.t))
    && Rep(c.h, At(c.sa), Object(c.s))
    && Foot(c.h, At(c.ta), Object(c.t)) !! Foot(c.h, At(c.sa), Object(c.s))
  }

  ghost function TargetFoot(c: Call, k: string): set<nat>
    requires Apart(c)
  {
    if k in c.t then Foot(c.h, c.h[c.ta][k], c.t[k]) else {}
  }

  ghost function SourceFoot(c: Call, k: string): set<nat>
    requires Apart(c)
  {
    if k in c.s then Foot(c.h, c.h[c.sa][k], c.s[k]) else {}
  }

  function Merged(c: Call, k: string): Value
    requires k in c.t || k in c.s
  {
    if k !in c.s then c.t[k] else if k in c.t then Merge(c.t[k], c.s[k]) else c.s[k]
  }

  /** The target's key k has the merged value; a key of the source alone shares the source's object. */
  ghost predicate Done(c: Call, h: Heap, k: string)
    requires Apart(c) && (k in c.t || k in c.s)
  {
    && c.ta in h && k in h[c.ta] && Rep(h, h[c.ta][k], Merged(c, k))
    && Foot(h, h[c.ta][k], Merged(c, k)) <= TargetFoot(c, k) + SourceFoot(c, k)
    && (k !in c.t ==> h[c.ta][k] == c.h[c.sa][k])
  }

  /** The target's key k is as it was. */
  ghost predicate Pending(c: Call, h: Heap, k: string)
    requires Apart(c) && k in c.t
  {
    c.ta in h && k in h[c.ta] && h[c.ta][k] == c.h[c.ta][k] && Unchanged(c.h, h, TargetFoot(c, k))
  }

  ghost predicate EachKey(c: Call, h: Heap, done: set<string>)
    requires Apart(c) && done <= c.s.Keys
  {
    && (forall k :: k in done ==> Done(c, h, k))
    && forall k :: k in c.t && k !in done ==> Pending(c, h, k)
  }

  /** The keys in done are merged, the other keys of the target are as they were, and nothing outside
      the target has changed. */
  ghost predicate Progress(c: Call, h: Heap, done: set<string>)
    requires Apart(c) && done <= c.s.Keys
  {
    && h.Keys == c.h.Keys && h[c.ta].Keys == c.t.Keys + done
    && Unchanged(c.h, h, c.h.Keys - Foot(c.h, At(c.ta), Object(c.t)))
    && EachKey(c, h, done)
  }

  /** The feet of two keys do not meet, nor do they hold the target's own address. */
  lemma KeysApart(c: Call, k: string, l: string)
    requires Apart(c) && k != l && k in c.t
    ensures TargetFoot(c, k) !! TargetFoot(c, l) + SourceFoot(c, l)
    ensures c.ta !in TargetFoot(c, l) + SourceFoot(c, l)
  {
    ChildFoot(c.h, At(c.ta), c.t, k);
    if l in c.t {
      ChildFoot(c.h, At(c.ta), c.t, l);
    }
    if l in c.s {
      ChildFoot(c.h, At(c.sa), c.s, l);
    }
  }

  /** Outside what key k holds in the target, h' is h, except that the target's key k now holds child. */
  ghost predicate Turn(c: Call, h: Heap, h': Heap, k: string, child: Ref)
    requires Apart(c)
  {
    && c.ta in h && h'.Keys == h.Keys
    && h'[c.ta] == h[c.ta][k := child]
    && Unchanged(h, h', h.Keys - TargetFoot(c, k) - {c.ta})
  }

  /** A merged key stays merged while another key is. */
  lemma DoneStays(c: Call, h: Heap, h': Heap, k: string, child: Ref, l: string)
    requires Apart(c) && h.Keys == c.h.Keys && Turn(c, h, h', k, child) && k != l
    requires (l in c.t || l in c.s) && Done(c, h, l)
    ensures Done(c, h', l)
  {
    if k in c.t {
      KeysApart(c, k, l);
    } else if l in c.t {
      KeysApart(c, l, k);
    } else {
      ChildFoot(c.h, At(c.sa), c.s, l);
    }
    FeetInHeap(h, h[c.ta][l], Merged(c, l));
    Frame(h, h', h[c.ta][l], Merged(c, l));
  }

  /** A key still to come stays as it was while another key is merged. */
  lemma PendingStays(c: Call, h: Heap, h': Heap, k: string, child: Ref, l: string)
    requires Apart(c) && h.Keys == c.h.Keys && Turn(c, h, h', k, child) && k != l
    requires l in c.t && Pending(c, h, l)
    ensures Pending(c, h', l)
  {
    KeysApart(c, l, k);
    ChildFoot(c.h, At(c.ta), c.t, l);
  }

  lemma {:induction false} FeetInHeap(h: Heap, v: Ref, value: Value)
    requires Rep(h, v, value)
    ensures Foot(h, v, value) <= h.Keys
    decreases value
  {
    if value.Object? {
      forall k | k in value.fields ensures Foot(h, h[v.addr][k], value.fields[k]) <= h.Keys {
        FeetInHeap(h, h[v.addr][k], value.fields[k]);
      }
    }
  }

  lemma Start(c: Call, todo: set<string>)
    requires Apart(c) && todo == c.s.Keys
    ensures Progress(c, c.h, c.s.Keys - todo)
  {
    FeetInHeap(c.h, At(c.ta), Object(c.t));
    forall k | k in c.t ensures Pending(c, c.h, k) {
      ChildFoot(c.h, At(c.ta), c.t, k);
    }
  }

  lemma OthersStay(c: Call, h: Heap, h': Heap, done: set<string>, k: string, child: Ref)
    requires Apart(c) && done <= c.s.Keys && Progress(c, h, done) && k in c.s && k !in done && Turn(c, h, h', k, child)
    requires Done(c, h', k)
    ensures EachKey(c, h', done + {k})
  {
    forall l | l in done + {k} ensures Done(c, h', l) {
      if l != k {
        DoneStays(c, h, h', k, child, l);
      }
    }
    forall l | l in c.t && l !in done + {k} ensures Pending(c, h', l) {
      PendingStays(c, h, h', k, child, l);
    }
  }

  lemma OutsideStays(c: Call, h: Heap, h': Heap, done: set<string>, k: string, child: Ref)
    requires Apart(c) && done <= c.s.Keys && Progress(c, h, done) && k in c.s && k !in done && Turn(c, h, h', k, child)
    ensures Unchanged(c.h, h', c.h.Keys - Foot(c.h, At(c.ta), Object(c.t)))
  {
    if k in c.t {
      ChildFoot(c.h, At(c.ta), c.t, k);
    }
  }

  lemma TurnProgresses(c: Call, h: Heap, h': Heap, done: set<string>, k: string, child: Ref)
    requires Apart(c) && done <= c.s.Keys && Progress(c, h, done) && k in c.s && k !in done && Turn(c, h, h', k, child)
    requires Done(c, h', k)
    ensures Progress(c, h', done + {k})
  {
    OthersStay(c, h, h', done, k, child);
    OutsideStays(c, h, h', done, k, child);
    assert h'[c.ta].Keys == c.t.Keys + (done + {k});
  }

  /** With every key of the source merged the target stands for the merge. */
  lemma AllDone(c: Call, h: Heap)
    requires Apart(c) && Progress(c, h, c.s.Keys)
    ensures Rep(h, At(c.ta), Merge(Object(c.t), Object(c.s)))
    ensures Foot(h, At(c.ta), Merge(Object(c.t), Object(c.s))) <=
            Foot(c.h, At(c.ta), Object(c.t)) + Foot(c.h, At(c.sa), Object(c.s))
  {
    var merged := Merge(Object(c.t), Object(c.s)).fields;
    forall k | k in merged
      ensures merged[k] == Merged(c, k) && Rep(h, h[c.ta][k], merged[k])
      ensures Foot(h, h[c.ta][k], merged[k]) <=
              Foot(c.h, At(c.ta), Object(c.t)) + Foot(c.h, At(c.sa), Object(c.s))
    {
      if k in c.t {
        ChildFoot(c.h, At(c.ta), c.t, k);
      }
      if k in c.s {
        ChildFoot(c.h, At(c.sa), c.s, k);
        assert Done(c, h, k);
      } else {
        assert Pending(c, h, k);
        Frame(c.h, h, c.h[c.ta][k], c.t[k]);
      }
    }
  }

  /** Before a key is merged both sides of it are as they were. */
  lemma ChildrenOf(c: Call, h: Heap, done: set<string>, k: string)
    requires Apart(c) && done <= c.s.Keys && Progress(c, h, done) && k in c.s && k !in done
    ensures c.sa in h && k in h[c.sa] && h[c.sa][k] == c.h[c.sa][k]
    ensures k in h[c.ta] <==> k in c.t
    ensures Rep(h, h[c.sa][k], c.s[k]) && Foot(h, h[c.sa][k], c.s[k]) == SourceFoot(c, k)
    ensures k in c.t ==>
              && h[c.ta][k] == c.h[c.ta][k] && Rep(h, h[c.ta][k], c.t[k]) && Tree(h, h[c.ta][k], c.t[k])
              && Foot(h, h[c.ta][k], c.t[k]) == TargetFoot(c, k) && TargetFoot(c, k) !! SourceFoot(c, k)
  {
    FeetInHeap(c.h, At(c.sa), Object(c.s));
    ChildFoot(c.h, At(c.sa), c.s, k);
    Frame(c.h, h, c.h[c.sa][k], c.s[k]);
    if k in c.t {
      ChildFoot(c.h, At(c.ta), c.t, k);
      assert Pending(c, h, k);
      Frame(c.h, h, c.h[c.ta][k], c.t[k]);
    }
  }

  lemma NotBelow(c: Call, k: string)
    requires Apart(c)
    ensures c.ta !in TargetFoot(c, k) + SourceFoot(c, k)
  {
    if k in c.s {
      ChildFoot(c.h, At(c.sa), c.s, k);
    }
  }

  /** Writing a field of an object that is no part of the child leaves the child as it is. */
  lemma Write(h: Heap, a: nat, k: string, child: Ref, value: Value)
    requires a in h && Rep(h, child, value) && a !in Foot(h, child, value)
    ensures var h' := h[a := h[a][k := child]];
            Rep(h', child, value) && Foot(h', child, value) == Foot(h, child, value)
  {
    FeetInHeap(h, child, value);
    Frame(h, h[a := h[a][k := child]], child, value);
  }

  /** What holds for the key after its recursive call, or without one, still holds once the child is
      written. */
  lemma AfterCall(c: Call, h: Heap, called: Heap, done: set<string>, k: string, child: Ref)
    requires Apart(c) && done <= c.s.Keys && Progress(c, h, done) && k in c.s && k !in done
    requires called.Keys == h.Keys && Unchanged(h, called, h.Keys - TargetFoot(c, k))
    requires Rep(called, child, Merged(c, k))
    requires Foot(called, child, Merged(c, k)) <= TargetFoot(c, k) + SourceFoot(c, k)
    requires k !in c.t ==> child == c.h[c.sa][k]
    ensures c.ta in called
    ensures var h' := called[c.ta := called[c.ta][k := child]]; Turn(c, h, h', k, child) && Done(c, h', k)
  {
    FeetInHeap(c.h, At(c.ta), Object(c.t));
    assert c.ta !in TargetFoot(c, k) + SourceFoot(c, k) by {
      NotBelow(c, k);
    }
    Write(called, c.ta, k, child, Merged(c, k));
  }

  /** One turn of the loop merges one more key. */
  lemma KeyMerged(c: Call, h: Heap, called: Heap, done: set<string>, todo: set<string>, k: string, child: Ref)
    requires Apart(c) && done == c.s.Keys - todo && Progress(c, h, done) && k in c.s && k in todo
    requires called.Keys == h.Keys && Unchanged(h, called, h.Keys - TargetFoot(c, k))
    requires Rep(called, child, Merged(c, k))
    requires Foot(called, child, Merged(c, k)) <= TargetFoot(c, k) + SourceFoot(c, k)
    requires k !in c.t ==> child == c.h[c.sa][k]
    ensures c.ta in called
    ensures Progress(c, called[c.ta := called[c.ta][k := child]], c.s.Keys - (todo - {k}))
  {
    AfterCall(c, h, called, done, k, child);
    TurnProgresses(c, h, called[c.ta := called[c.ta][k := child]], done, k, child);
    assert done + {k} == c.s.Keys - (todo - {k});
  }

  class Memory {
    var objects: Heap

    /** `assignObj`: writes key by key, in any order, into the target, recursing where both sides have
        the key and otherwise sharing what the source holds. */
    method AssignObj(target: Ref, sources: Ref, ghost tv: Value, ghost sv: Value) returns (obj: Ref)
      requires Rep(objects, target, tv) && Tree(objects, target, tv) && Rep(objects, sources, sv)
      requires Foot(objects, target, tv) !! Foot(objects, sources, sv)
      modifies this
      ensures obj == if target.At? && sources.At? then target else sources
      ensures objects.Keys == old(objects.Keys)
      ensures Unchanged(old(objects), objects, old(objects.Keys - Foot(objects, target, tv)))
      ensures Rep(objects, obj, Merge(tv, sv))
      ensures Foot(objects, obj, Merge(tv, sv)) <= old(Foot(objects, target, tv) + Foot(objects, sources, sv))
      ensures forall k | tv.Object? && sv.Object? && k in sv.fields && k !in tv.fields ::
                objects[target.addr][k] == old(objects[sources.addr][k])
      decreases sv
    {
      if target.Text? || sources.Text? {
        return sources;
      }
      ghost var c := Call(objects, target.addr, sources.addr, tv.fields, sv.fields);
      var todo := objects[sources.addr].Keys;
      Start(c, todo);
      while todo != {}
        invariant todo <= sv.fields.Keys && Apart(c) && Progress(c, objects, sv.fields.Keys - todo)
        decreases todo
      {
        var key :| key in todo;
        ghost var before := objects;
        ChildrenOf(c, before, sv.fields.Keys - todo, key);
        var child := objects[sources.addr][key];
        if key in objects[target.addr] {
          child := AssignObj(objects[target.addr][key], child, tv.fields[key], sv.fields[key]);
        }
        KeyMerged(c, before, objects, sv.fields.Keys - todo, todo, key, child);
        objects := objects[target.addr := objects[target.addr][key := child]];
        todo := todo - {key};
      }
      AllDone(c, objects);
      obj := target;
    }
  }

  // ---------------------------------------------------------------- reading by path

  function Read(v: Value, path: Path): Option<Value> {
    if path == [] then Some(v)
    else if v.Leaf? || path[0] !in v.fields then None
    else Read(v.fields[path[0]], path[1..])
  }

  /** A path is read key by key: there is nothing below a leaf, nor below a key that is not there. */
  lemma ReadMeans(fields: map<string, Value>, text: string, key: string, path: Path)
    ensures Read(Object(fields), []) == Some(Object(fields)) && Read(Leaf(text), []) == Some(Leaf(text))
    ensures Read(Leaf(text), [key] + path) == None
    ensures key !in fields ==> Read(Object(fields), [key] + path) == None
    ensures key in fields ==> Read(Object(fields), [key] + path) == Read(fields[key], path)
  {
    assert ([key] + path)[1..] == path;
  }

  /** The source holds a leaf at a proper prefix of the path. */
  predicate Cuts(source: Value, path: Path) {
    path != [] && (source.Leaf? || (path[0] in source.fields && Cuts(source.fields[path[0]], path[1..])))
  }

  /** Every path of the result: what the source holds there wins unless both hold objects, which are
      merged; a path below a leaf of the source is gone; every other path reads as in the target. */
  lemma {:induction false} MergeReads(target: Value, source: Value, path: Path)
    ensures Read(Merge(target, source), path) ==
            (match (Read(target, path), Read(source, path))
             case (Some(t), Some(s)) => Some(Merge(t, s))
             case (None, Some(s)) => Some(s)
             case (t, None) => if Cuts(source, path) then None else t)
    decreases path
  {
    if path != [] && target.Object? && source.Object? {
      var key := path[0];
      if key in target.fields && key in source.fields {
        MergeReads(target.fields[key], source.fields[key], path[1..]);
      }
    }
  }

  /** Each leaf of the source is a leaf of the result; each leaf of the target that the source neither
      reaches nor cuts off stays. */
  lemma LeavesOfMerge(target: Value, source: Value, path: Path, text: string)
    ensures Read(source, path) == Some(Leaf(text)) ==> Read(Merge(target, source), path) == Some(Leaf(text))
    ensures Read(target, path) == Some(Leaf(text)) && Read(source, path) == None && !Cuts(source, path) ==>
              Read(Merge(target, source), path) == Some(Leaf(text))
  {
    MergeReads(target, source, path);
  }

  /** Conversely, every leaf of the result comes from the source, or from the target where the source
      is silent. */
  lemma LeavesComeFrom(target: Value, source: Value, path: Path, text: string)
    requires Read(Merge(target, source), path) == Some(Leaf(text))
    ensures || Read(source, path) == Some(Leaf(text))
            || (Read(target, path) == Some(Leaf(text)) && Read(source, path) == None && !Cuts(source, path))
  {
    MergeReads(target, source, path);
  }

  /** Wherever both hold an object, the result's keys are the union of theirs. */
  lemma KeysOfMerge(target: Value, source: Value, path: Path)
    requires Read(target, path).Some? && Read(source, path).Some?
    requires Read(target, path).value.Object? && Read(source, path).value.Object?
    ensures var m := Read(Merge(target, source), path);
            m.Some? && m.value.Object?
            && m.value.fields.Keys == Read(target, path).value.fields.Keys + Read(source, path).value.fields.Keys
  {
    MergeReads(target, source, path);
  }

  lemma {:induction false} MergeSelf(v: Value)
    ensures Merge(v, v) == v
    decreases v
  {
    if v.Object? {
      forall key | key in v.fields ensures Merge(v.fields[key], v.fields[key]) == v.fields[key] {
        MergeSelf(v.fields[key]);
      }
      assert Merge(v, v).fields == v.fields;
    }
  }

  /** Merging the same source again changes nothing. */
  lemma {:induction false} MergeTwice(target: Value, source: Value)
    ensures Merge(Merge(target, source), source) == Merge(target, source)
    decreases source
  {
    if target.Leaf? || source.Leaf? {
      MergeSelf(source);
    } else {
      var once := Merge(target, source);
      forall key | key in source.fields ensures Merge(once.fields[key], source.fields[key]) == once.fields[key] {
        if key in target.fields {
          MergeTwice(target.fields[key], source.fields[key]);
        } else {
          MergeSelf(source.fields[key]);
        }
      }
      assert Merge(once, source).fields == once.fields;
    }
  }
}
