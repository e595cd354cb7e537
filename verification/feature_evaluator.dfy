/** The feature evaluator: one attribute map, seeded from shared data at
    construction and extended by every `With` call, handed together with a
    feature name to an external resolver whose verdict is returned as is. */
module FeatureEvaluator {
  import opened Results
  import opened FeatureData

  /** The external resolver: a feature name and the current attribute map in,
      a verdict out.  It is modelled as a pure, total function: it is assumed
      not to throw and not to write to the map it is handed.  Beyond that,
      nothing is assumed about the verdict. */
  type Resolver = (string, Attributes) -> bool

  /** An evaluator: its resolver (fixed for its lifetime) and its map. */
  datatype Evaluator = Evaluator(resolver: Resolver, data: Attributes)

  /** The evaluator after a `With` call, and the exception the call threw, if
      any.  The returned evaluator is the receiver itself, so its state is
      what a chained query sees; after a throw it is what the caller's
      reference still sees. */
  datatype Applied = Applied(evaluator: Evaluator, thrown: Option<Error>)

  /** The constructor.  A null resolver is refused first; a null shared-data
      sequence counts as empty; otherwise the shared objects are merged in
      sequence order into an empty map, and a null object among them throws. */
  function New(resolver: Option<Resolver>, sharedData: Option<seq<Data>>): (r: Result<Evaluator>)
    ensures resolver.None? ==> r.Failure? && r.error == ArgumentNull("resolver")
    ensures resolver.Some? ==>
              (r.Success? <==> forall j :: 0 <= j < |sharedData.GetOr([])| ==> sharedData.GetOr([])[j].Object?)
    ensures resolver.Some? && r.Failure? ==> r.error == NullReference
    ensures resolver.Some? && sharedData.None? ==> r.Success? && r.value.data == map[]
    ensures r.Success? ==> r.value.resolver == resolver.value
    ensures r.Success? ==> r.value.data == MergeAll(map[], Objects(sharedData.GetOr([])))
  {
    if resolver.None? then Failure(ArgumentNull("resolver"))
    else
      var shared := sharedData.GetOr([]);
      var merged := Populate(map[], shared);
      if merged.fault.Some? then Failure(merged.fault.value)
      else Success(Evaluator(resolver.value, merged.data))
  }

  /** Asks the resolver about feature `name`, passing it exactly that name and
      the evaluator's current map, and answers with its verdict unchanged. */
  function IsOn(ev: Evaluator, name: string): (on: bool)
    ensures on == ev.resolver(name, ev.data)
  {
    ev.resolver(name, ev.data)
  }

  /** `With<T>(data)`: merges one object into the map and returns the same
      evaluator; a null object throws before anything is merged. */
  function WithOne(ev: Evaluator, d: Data): (r: Applied)
    ensures r.evaluator.resolver == ev.resolver
    ensures d.Null? ==> r.thrown == Some(NullReference) && r.evaluator.data == ev.data
    ensures d.Object? ==> r.thrown.None?
    ensures d.Object? ==> r.evaluator.data.Keys == ev.data.Keys + Names(d.properties)
    ensures d.Object? ==>
              forall k :: Get(r.evaluator.data, k) == LastValue(d.properties, k).OrElse(Get(ev.data, k))
  {
    match d
    case Null => Applied(ev, Some(NullReference))
    case Object(p) => Applied(ev.(data := MergeObject(ev.data, p)), None)
  }

  /** `With(params object[] data)`: merges the objects left to right on top of
      the current map and returns the same evaluator.  A null array throws
      before any merge; a null element throws after the elements before it
      have been merged. */
  function With(ev: Evaluator, ds: Option<seq<Data>>): (r: Applied)
    ensures r.evaluator.resolver == ev.resolver
    ensures ds.None? ==> r.thrown == Some(NullReference) && r.evaluator.data == ev.data
    ensures ds.Some? ==>
              (r.thrown.None? <==> forall j :: 0 <= j < |ds.value| ==> ds.value[j].Object?)
    ensures ds.Some? && r.thrown.Some? ==> r.thrown.value == NullReference
    ensures ds.Some? ==> r.evaluator.data == MergeAll(ev.data, Objects(ds.value[..FirstNull(ds.value)]))
  {
    if ds.None? then Applied(ev, Some(NullReference))
    else
      var merged := Populate(ev.data, ds.value);
      Applied(ev.(data := merged.data), merged.fault)
  }

  /** With no null argument, `With` throws nothing and its map is the
      arguments merged in order over the current map. */
  lemma WithMergesAll(ev: Evaluator, ds: seq<Data>)
    requires forall j :: 0 <= j < |ds| ==> ds[j].Object?
    ensures With(ev, Some(ds)).thrown.None?
    ensures With(ev, Some(ds)).evaluator.data == MergeAll(ev.data, Objects(ds))
  {
  }

  /** The two `With` overloads agree: `With<T>(d)` is `With(d)` with one argument. */
  lemma WithOneIsWithSingleton(ev: Evaluator, d: Data)
    ensures WithOne(ev, d) == With(ev, Some([d]))
  {
    match d
    case Null =>
    case Object(p) =>
      assert [d][..FirstNull([d])] == [d];
      assert Objects([d]) == [p];
      assert MergeAll(ev.data, [p]) == MergeObject(ev.data, p) by {
        assert [p][..0] == [];
      }
  }

  /** Data supplied through `With` after construction continues the shared
      data's merge sequence: the map is the shared objects and then the
      `With` objects merged in order into an empty map, so a `With` value
      overrides a constructor value under the same name and leaves the
      other constructor values in place. */
  lemma {:induction false} WithContinuesSharedData(res: Resolver, shared: seq<Data>, ds: seq<Data>)
    requires New(Some(res), Some(shared)).Success?
    requires forall j :: 0 <= j < |ds| ==> ds[j].Object?
    ensures var ev := New(Some(res), Some(shared)).value;
            var after := With(ev, Some(ds));
            && after.thrown.None?
            && after.evaluator.data == MergeAll(map[], Objects(shared) + Objects(ds))
  {
    var ev := New(Some(res), Some(shared)).value;
    assert forall j :: 0 <= j < |shared| ==> shared[j].Object?;
    MergeAllAppend(map[], Objects(shared), Objects(ds));
  }

  /** A chained `ev.With(ds).IsOn(name)` puts the merged map in front of the
      resolver: the verdict is the resolver's answer for `name` on the old
      map overridden by the `With` objects. */
  lemma ChainedQuerySeesMergedData(ev: Evaluator, ds: seq<Data>, name: string)
    requires forall j :: 0 <= j < |ds| ==> ds[j].Object?
    ensures IsOn(With(ev, Some(ds)).evaluator, name) == ev.resolver(name, MergeAll(ev.data, Objects(ds)))
  {
  }
}
