/** The behaviours the repository's own test suite pins down, stated about
    the model on the same concrete data: people and countries merged into
    an evaluator, and a selector driven by a feature that asks an evaluator. */
module Scenarios {
  import opened Results
  import opened FeatureData
  import opened FeatureEvaluator
  import FeatureSelector

  /** A person object: properties FirstName and LastName, in that order. */
  function Person(first: string, last: string): Data {
    Object([Property("FirstName", Text(first)), Property("LastName", Text(last))])
  }

  /** A country object: one property, CountryName. */
  function Country(name: string): Data {
    Object([Property("CountryName", Text(name))])
  }

  /** The map after merging the people and countries of the tests. */
  function Expected(first: string, last: string, country: string): Attributes {
    map["FirstName" := Text(first), "LastName" := Text(last), "CountryName" := Text(country)]
  }

  /** Merging a person writes its two names, first name first. */
  lemma MergePerson(m: Attributes, first: string, last: string)
    ensures MergeObject(m, Person(first, last).properties)
            == m["FirstName" := Text(first)]["LastName" := Text(last)]
  {
    var props := Person(first, last).properties;
    assert props[..1][..0] == [];
    assert MergeObject(m, props[..1][..0]) == m;
    assert MergeObject(m, props[..1]) == m["FirstName" := Text(first)];
  }

  /** Merging a country writes its one name. */
  lemma MergeCountry(m: Attributes, name: string)
    ensures MergeObject(m, Country(name).properties) == m["CountryName" := Text(name)]
  {
  }

  /** Merging three objects is merging them one at a time. */
  lemma MergeThree(m: Attributes, a: seq<Property>, b: seq<Property>, c: seq<Property>)
    ensures MergeAll(m, [a, b, c]) == MergeObject(MergeObject(MergeObject(m, a), b), c)
  {
    assert [a, b, c][..2] == [a, b];
    MergeTwo(m, a, b);
  }

  /** The map of the first override scenario, computed merge by merge. */
  lemma PresidentsMerged()
    ensures MergeAll(map[], [Person("George", "Washington").properties, Country("USA").properties,
                             Person("John", "Adams").properties])
            == Expected("John", "Adams", "USA")
  {
    var p1, c, p2 := Person("George", "Washington"), Country("USA"), Person("John", "Adams");
    MergeThree(map[], p1.properties, c.properties, p2.properties);
    MergePerson(map[], "George", "Washington");
    var m1 := map[]["FirstName" := Text("George")]["LastName" := Text("Washington")];
    MergeCountry(m1, "USA");
    var m2 := m1["CountryName" := Text("USA")];
    MergePerson(m2, "John", "Adams");
    var m3 := m2["FirstName" := Text("John")]["LastName" := Text("Adams")];
    assert m3 == Expected("John", "Adams", "USA") by {
      assert m3.Keys == {"FirstName", "LastName", "CountryName"};
    }
  }

  /** The expected maps hold exactly the three names of a person and a country. */
  lemma ExpectedHasThreeKeys(first: string, last: string, country: string)
    ensures |Expected(first, last, country)| == 3
  {
  }

  /** The property lists of person1, country, person2. */
  lemma PresidentsObjects()
    ensures Objects([Person("George", "Washington"), Country("USA"), Person("John", "Adams")])
            == [Person("George", "Washington").properties, Country("USA").properties,
                Person("John", "Adams").properties]
  {
  }

  /** Merging person1, country, person2 at construction: the later person
      wins on both of its names and the country survives. */
  lemma SharedDataLaterObjectWins(res: Resolver)
    ensures var r := New(Some(res), Some([Person("George", "Washington"), Country("USA"), Person("John", "Adams")]));
            && r.Success?
            && r.value.data == Expected("John", "Adams", "USA")
            && |r.value.data| == 3
  {
    var shared := [Person("George", "Washington"), Country("USA"), Person("John", "Adams")];
    var objs := [Person("George", "Washington").properties, Country("USA").properties,
                 Person("John", "Adams").properties];
    PresidentsObjects();
    assert forall j :: 0 <= j < |shared| ==> shared[j].Object?;
    var r := New(Some(res), Some(shared));
    assert r.value.data == MergeAll(map[], objs);
    PresidentsMerged();
    assert r.value.data == Expected("John", "Adams", "USA");
    ExpectedHasThreeKeys("John", "Adams", "USA");
  }

  /** A constructor without shared data starts from the empty map, and a
      null resolver is refused whatever the shared data. */
  lemma ConstructorArguments(res: Resolver, shared: Option<seq<Data>>)
    ensures New(Some(res), None).Success? && New(Some(res), None).value.data == map[]
    ensures New(None, shared) == Failure(ArgumentNull("resolver"))
  {
  }

  /** Merging two objects is merging them one at a time. */
  lemma MergeTwo(m: Attributes, a: seq<Property>, b: seq<Property>)
    ensures MergeAll(m, [a, b]) == MergeObject(MergeObject(m, a), b)
  {
    assert [a, b][..1] == [a];
    assert [a][..0] == [];
    assert MergeAll(m, []) == m;
    assert MergeAll(m, [a]) == MergeObject(m, a);
  }

  /** The map after constructing with John Adams and Britain. */
  function AdamsInBritain(): Attributes {
    map[]["FirstName" := Text("John")]["LastName" := Text("Adams")]["CountryName" := Text("Britian")]
  }

  /** Constructing with John Adams and Britain merges both objects in order. */
  lemma AdamsSeeded(res: Resolver)
    ensures New(Some(res), Some([Person("John", "Adams"), Country("Britian")])).Success?
    ensures New(Some(res), Some([Person("John", "Adams"), Country("Britian")])).value.data == AdamsInBritain()
  {
    var p1, c1 := Person("John", "Adams"), Country("Britian");
    assert Objects([p1, c1]) == [p1.properties, c1.properties];
    assert forall j :: 0 <= j < |[p1, c1]| ==> [p1, c1][j].Object?;
    MergeTwo(map[], p1.properties, c1.properties);
    MergePerson(map[], "John", "Adams");
    MergeCountry(map[]["FirstName" := Text("John")]["LastName" := Text("Adams")], "Britian");
  }

  /** Merging John Quincy Adams and the USA over any map. */
  lemma QuincyOver(m: Attributes)
    ensures MergeAll(m, Objects([Person("John Quincy", "Adams"), Country("USA")]))
            == m["FirstName" := Text("John Quincy")]["LastName" := Text("Adams")]["CountryName" := Text("USA")]
  {
    var p2, c2 := Person("John Quincy", "Adams"), Country("USA");
    assert Objects([p2, c2]) == [p2.properties, c2.properties];
    MergeTwo(m, p2.properties, c2.properties);
    MergePerson(m, "John Quincy", "Adams");
    MergeCountry(m["FirstName" := Text("John Quincy")]["LastName" := Text("Adams")], "USA");
  }

  /** Overriding the first name and the country of John Adams in Britain. */
  lemma QuincyOverAdams()
    ensures AdamsInBritain()["FirstName" := Text("John Quincy")]["LastName" := Text("Adams")]["CountryName" := Text("USA")]
            == Expected("John Quincy", "Adams", "USA")
  {
    var m := AdamsInBritain()["FirstName" := Text("John Quincy")]["LastName" := Text("Adams")]["CountryName" := Text("USA")];
    assert m.Keys == {"FirstName", "LastName", "CountryName"};
  }

  /** `With(person2, country2)` on an evaluator seeded with a person and a
      country overrides every constructor value it collides with; here only
      the first name and the country differ. */
  lemma WithOverridesPartialConstructorData(res: Resolver)
    ensures var ev := New(Some(res), Some([Person("John", "Adams"), Country("Britian")]));
            && ev.Success?
            && var after := With(ev.value, Some([Person("John Quincy", "Adams"), Country("USA")]));
            && after.thrown.None?
            && after.evaluator.data == Expected("John Quincy", "Adams", "USA")
  {
    AdamsSeeded(res);
    var ev := New(Some(res), Some([Person("John", "Adams"), Country("Britian")])).value;
    var extra := [Person("John Quincy", "Adams"), Country("USA")];
    WithMergesAll(ev, extra);
    QuincyOver(AdamsInBritain());
    QuincyOverAdams();
  }

  /** A null element stops `With` with a null-reference exception, and the
      objects before it stay merged. */
  lemma WithStopsAtNullObject(ev: Evaluator)
    ensures var after := With(ev, Some([Country("USA"), Null, Person("John", "Adams")]));
            && after.thrown == Some(NullReference)
            && after.evaluator.data == ev.data["CountryName" := Text("USA")]
  {
  }

  /** The tests' data-carrying feature: it holds one evaluator and asks it
      about the name "Test Feature".  The evaluator is one shared object in
      the source, so the holder keeps the evaluator that `With` returns. */
  datatype DataFeature = DataFeature(evaluator: Evaluator)

  const TestFeatureName := "Test Feature"

  /** The feature's answer and the feature as it is after answering. */
  datatype Asked = Asked(answer: Result<bool>, feature: DataFeature)

  /** `IsOnAsync()`: asks the held evaluator; nothing changes. */
  function AskPlain(f: DataFeature): (r: Asked)
    ensures r.feature == f
    ensures r.answer == Success(f.evaluator.resolver(TestFeatureName, f.evaluator.data))
  {
    Asked(Success(IsOn(f.evaluator, TestFeatureName)), f)
  }

  /** `IsOnAsync<T>(data)`: merges `d` into the held evaluator and asks it.  A
      null object throws before the question is asked and changes nothing. */
  function AskWith(f: DataFeature, d: Data): (r: Asked)
    ensures r.feature.evaluator.resolver == f.evaluator.resolver
    ensures d.Null? ==> r.answer == Failure(NullReference) && r.feature == f
    ensures d.Object? ==>
              && r.feature.evaluator.data == MergeObject(f.evaluator.data, d.properties)
              && r.answer == Success(f.evaluator.resolver(TestFeatureName, r.feature.evaluator.data))
  {
    var applied := WithOne(f.evaluator, d);
    var held := DataFeature(applied.evaluator);
    if applied.thrown.Some? then Asked(Failure(applied.thrown.value), held)
    else Asked(Success(IsOn(applied.evaluator, TestFeatureName)), held)
  }

  /** Data given to one query stays with the feature: after
      `IsOnAsync(person)`, a plain `IsOnAsync()` puts the person's names, with
      the person's values, in front of the resolver. */
  lemma {:induction false} LaterPlainQuerySeesEarlierData(f: DataFeature, first: string, last: string)
    ensures var later := AskPlain(AskWith(f, Person(first, last)).feature);
            var seen := f.evaluator.data["FirstName" := Text(first)]["LastName" := Text(last)];
            && later.answer == Success(f.evaluator.resolver(TestFeatureName, seen))
            && Get(later.feature.evaluator.data, "FirstName") == Some(Text(first))
            && Get(later.feature.evaluator.data, "LastName") == Some(Text(last))
  {
    MergePerson(f.evaluator.data, first, last);
  }

  /** A feature in the style of the tests: it asks the evaluator about its
      own name. */
  function FeatureAnswer(ev: Evaluator, feature: FeatureSelector.Feature): Result<bool> {
    Success(IsOn(ev, feature.name))
  }

  /** A selector driven by such a feature builds the "on" type exactly when
      the resolver, asked about the feature's name with the current map,
      says on; restubbing the resolver between two calls switches the branch. */
  lemma SelectorFollowsResolver<T>(sel: FeatureSelector.Selector<T>, ev: Evaluator, other: Resolver)
    requires sel.logger != FeatureSelector.ThrowingLogger
    requires other(sel.feature.name, ev.data) != ev.resolver(sel.feature.name, ev.data)
    ensures var first := FeatureSelector.Create(sel, FeatureAnswer(ev, sel.feature));
            var second := FeatureSelector.Create(sel, FeatureAnswer(ev.(resolver := other), sel.feature));
            && first.Success? && second.Success?
            && (first.value.invoked == [FeatureSelector.On] <==> ev.resolver(sel.feature.name, ev.data))
            && first.value.invoked != second.value.invoked
  {
  }
}
