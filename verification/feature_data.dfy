/** The attribute map of a feature evaluator and the flattening of data
    objects into it.  A data object is described by its public properties in
    the order reflection lists them; merging writes each property into the
    map, so on a name collision the property merged last wins. */
module FeatureData {
  import opened Results

  /** A property value; the evaluator passes values through without looking
      at them, so only their identity matters here. */
  datatype Value =
    | NullValue
    | Text(text: string)
    | Number(number: int)
    | Version(parts: seq<nat>)
    | Opaque(id: nat)

  /** One public property of a data object. */
  datatype Property = Property(name: string, value: Value)

  /** A data object as the evaluator receives it: possibly a null reference. */
  datatype Data = Null | Object(properties: seq<Property>)

  /** The evaluator's string-keyed attribute map. */
  type Attributes = map<string, Value>

  /** Looks a key up in the attribute map. */
  function Get(m: Attributes, k: string): Option<Value> {
    if k in m then Some(m[k]) else None
  }

  /** Two attribute maps that answer every lookup alike are the same map. */
  lemma SameLookups(a: Attributes, b: Attributes)
    requires forall k :: Get(a, k) == Get(b, k)
    ensures a == b
  {
    forall k | k in a
      ensures k in b && a[k] == b[k]
    {
      assert Get(a, k) == Get(b, k);
    }
    forall k | k in b
      ensures k in a
    {
      assert Get(a, k) == Get(b, k);
    }
  }

  // ---------------------------------------------------------------------
  // One data object
  // ---------------------------------------------------------------------

  /** The property names of one data object. */
  function Names(props: seq<Property>): set<string>
    decreases |props|
  {
    if |props| == 0 then {}
    else Names(props[..|props| - 1]) + {props[|props| - 1].name}
  }

  /** Reference semantics of one object: the value of the LAST property
      called `k`, or None when the object has no such property. */
  function LastValue(props: seq<Property>, k: string): (r: Option<Value>)
    ensures r.Some? <==> k in Names(props)
    decreases |props|
  {
    if |props| == 0 then None
    else if props[|props| - 1].name == k then Some(props[|props| - 1].value)
    else LastValue(props[..|props| - 1], k)
  }

  /** Writes the properties of one object into `m` in order, each one
      inserting or overwriting its name.  Every property name ends up in the
      map with the object's (last) value for it; every other key keeps its
      old value. */
  function MergeObject(m: Attributes, props: seq<Property>): (r: Attributes)
    ensures r.Keys == m.Keys + Names(props)
    ensures forall k :: Get(r, k) == LastValue(props, k).OrElse(Get(m, k))
    decreases |props|
  {
    if |props| == 0 then m
    else
      var last := props[|props| - 1];
      MergeObject(m, props[..|props| - 1])[last.name := last.value]
  }

  /** The property loop of the evaluator: one insert-or-overwrite per
      property, in reflection order, on a working copy of the map. */
  method PopulateAllDataFrom(m: Attributes, props: seq<Property>) returns (r: Attributes)
    ensures r == MergeObject(m, props)
  {
    r := m;
    var i := 0;
    while i < |props|
      invariant 0 <= i <= |props|
      invariant r == MergeObject(m, props[..i])
    {
      assert props[..i + 1][..i] == props[..i];
      r := r[props[i].name := props[i].value];
      i := i + 1;
    }
    assert props[..i] == props;
  }

  /** Within one object the later property wins: if property `i` is called
      `k` and no later property is, merging the object leaves `k` holding
      property `i`'s value, whatever `m` held before. */
  lemma {:induction false} LaterPropertyWins(m: Attributes, props: seq<Property>, i: nat, k: string)
    requires i < |props| && props[i].name == k
    requires forall j :: i < j < |props| ==> props[j].name != k
    ensures LastValue(props, k) == Some(props[i].value)
    ensures Get(MergeObject(m, props), k) == Some(props[i].value)
    decreases |props|
  {
    var n := |props| - 1;
    if i < n {
      var init := props[..n];
      assert props[n].name != k;
      forall j | i < j < |init|
        ensures init[j].name != k
      {
        assert init[j] == props[j];
      }
      LaterPropertyWins(m, init, i, k);
      assert init[i] == props[i];
    }
  }

  /** Merging the same object twice changes nothing the first merge did not. */
  lemma MergeObjectIdempotent(m: Attributes, props: seq<Property>)
    ensures MergeObject(MergeObject(m, props), props) == MergeObject(m, props)
  {
    var once := MergeObject(m, props);
    var twice := MergeObject(once, props);
    forall k
      ensures Get(twice, k) == Get(once, k)
    {
      if LastValue(props, k).None? {
        assert Get(twice, k) == Get(once, k);
      }
    }
    SameLookups(twice, once);
  }

  /** Objects with no property name in common can be merged in either order. */
  lemma DisjointMergesCommute(m: Attributes, p: seq<Property>, q: seq<Property>)
    requires Names(p) !! Names(q)
    ensures MergeObject(MergeObject(m, p), q) == MergeObject(MergeObject(m, q), p)
  {
    var pq := MergeObject(MergeObject(m, p), q);
    var qp := MergeObject(MergeObject(m, q), p);
    forall k
      ensures Get(pq, k) == Get(qp, k)
    {
      if k in Names(p) {
        assert k !in Names(q);
      }
    }
    SameLookups(pq, qp);
  }

  // ---------------------------------------------------------------------
  // A sequence of data objects
  // ---------------------------------------------------------------------

  /** Every property name of every object in the sequence. */
  function AllNames(objs: seq<seq<Property>>): set<string>
    decreases |objs|
  {
    if |objs| == 0 then {}
    else AllNames(objs[..|objs| - 1]) + Names(objs[|objs| - 1])
  }

  /** Reference semantics of a sequence of objects: the value that the LAST
      object having a property `k` gives it. */
  function LastWriter(objs: seq<seq<Property>>, k: string): (r: Option<Value>)
    ensures r.Some? <==> k in AllNames(objs)
    decreases |objs|
  {
    if |objs| == 0 then None
    else LastValue(objs[|objs| - 1], k).OrElse(LastWriter(objs[..|objs| - 1], k))
  }

  /** Merges the objects one after the other, in sequence order, on top of `m`.
      The key set becomes the old keys plus every merged property name; each
      merged name holds the value of the last object that has it; other keys
      are untouched. */
  function MergeAll(m: Attributes, objs: seq<seq<Property>>): (r: Attributes)
    ensures r.Keys == m.Keys + AllNames(objs)
    ensures forall k :: Get(r, k) == LastWriter(objs, k).OrElse(Get(m, k))
    decreases |objs|
  {
    if |objs| == 0 then m
    else MergeObject(MergeAll(m, objs[..|objs| - 1]), objs[|objs| - 1])
  }

  /** Merging `a` and then `b` is merging `a + b`: a later call continues the
      sequence of an earlier one. */
  lemma {:induction false} MergeAllAppend(m: Attributes, a: seq<seq<Property>>, b: seq<seq<Property>>)
    ensures MergeAll(m, a + b) == MergeAll(MergeAll(m, a), b)
    decreases |b|
  {
    if |b| == 0 {
      assert a + b == a;
    } else {
      var b' := b[..|b| - 1];
      assert (a + b)[..|a + b| - 1] == a + b';
      assert (a + b)[|a + b| - 1] == b[|b| - 1];
      MergeAllAppend(m, a, b');
    }
  }

  /** Merging one object first and then the rest is merging the whole sequence. */
  lemma MergeAllCons(m: Attributes, p: seq<Property>, rest: seq<seq<Property>>)
    ensures MergeAll(m, [p] + rest) == MergeAll(MergeObject(m, p), rest)
  {
    MergeAllAppend(m, [p], rest);
    assert [p][..0] == [];
  }

  /** Later merges only add or update: the key set never shrinks. */
  lemma KeysNeverShrink(m: Attributes, a: seq<seq<Property>>, b: seq<seq<Property>>)
    ensures m.Keys <= MergeAll(m, a).Keys <= MergeAll(m, a + b).Keys
  {
    MergeAllAppend(m, a, b);
  }

  /** On a name collision the later object wins: if object `j` has a property
      `k` and no later object has one, `k` ends up with object `j`'s value. */
  lemma {:induction false} LaterObjectWins(objs: seq<seq<Property>>, j: nat, k: string)
    requires j < |objs|
    requires k in Names(objs[j])
    requires forall i :: j < i < |objs| ==> k !in Names(objs[i])
    ensures LastWriter(objs, k) == LastValue(objs[j], k)
    decreases |objs|
  {
    var n := |objs| - 1;
    if j < n {
      var init := objs[..n];
      assert k !in Names(objs[n]);
      forall i | j < i < |init|
        ensures k !in Names(init[i])
      {
        assert init[i] == objs[i];
      }
      LaterObjectWins(init, j, k);
      assert init[j] == objs[j];
    }
  }

  // ---------------------------------------------------------------------
  // Nullable data objects
  // ---------------------------------------------------------------------

  /** The index of the first null reference, or the length when there is none. */
  function FirstNull(ds: seq<Data>): (i: nat)
    ensures i <= |ds|
    ensures forall j :: 0 <= j < i ==> ds[j].Object?
    ensures i < |ds| ==> ds[i].Null?
    decreases |ds|
  {
    if |ds| == 0 then 0
    else if ds[0].Null? then 0
    else 1 + FirstNull(ds[1..])
  }

  /** The property lists of the non-null objects, in order. */
  function Objects(ds: seq<Data>): (objs: seq<seq<Property>>)
    ensures |objs| <= |ds|
    ensures (forall j :: 0 <= j < |ds| ==> ds[j].Object?) ==>
              |objs| == |ds| && forall j :: 0 <= j < |ds| ==> objs[j] == ds[j].properties
    decreases |ds|
  {
    if |ds| == 0 then []
    else if ds[0].Null? then Objects(ds[1..])
    else [ds[0].properties] + Objects(ds[1..])
  }

  /** The outcome of merging a sequence of nullable objects: the map as the
      merge left it and the exception that stopped it, if any. */
  datatype Merged = Merged(data: Attributes, fault: Option<Error>)

  /** Merges the objects in order until the first null one, which throws a
      null-reference exception; the objects before it stay merged. */
  function Populate(m: Attributes, ds: seq<Data>): (r: Merged)
    ensures r.fault == (if FirstNull(ds) < |ds| then Some(NullReference) else None)
    ensures r.data == MergeAll(m, Objects(ds[..FirstNull(ds)]))
    ensures (forall j :: 0 <= j < |ds| ==> ds[j].Object?) ==> r.data == MergeAll(m, Objects(ds))
    decreases |ds|
  {
    assert FirstNull(ds) == |ds| ==> ds[..FirstNull(ds)] == ds;
    if |ds| == 0 then Merged(m, None)
    else match ds[0]
      case Null => Merged(m, Some(NullReference))
      case Object(p) => PopulateRest(m, p, ds)
  }

  /** `Populate` after the first object `p` (that is `ds[0]`) has been merged. */
  function PopulateRest(m: Attributes, p: seq<Property>, ds: seq<Data>): (r: Merged)
    requires |ds| > 0 && ds[0] == Object(p)
    ensures r.fault == (if FirstNull(ds) < |ds| then Some(NullReference) else None)
    ensures r.data == MergeAll(m, Objects(ds[..FirstNull(ds)]))
    decreases |ds|, 0
  {
    var rest := Populate(MergeObject(m, p), ds[1..]);
    var n := FirstNull(ds[1..]);
    assert ds[..1 + n] == [ds[0]] + ds[1..][..n];
    assert Objects(ds[..1 + n]) == [p] + Objects(ds[1..][..n]) by {
      assert (ds[..1 + n])[1..] == ds[1..][..n];
    }
    MergeAllCons(m, p, Objects(ds[1..][..n]));
    rest
  }
}
