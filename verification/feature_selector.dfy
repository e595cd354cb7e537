/** The feature selector: a factory that asks a feature whether it is on and
    builds the "on" implementation or the "off" implementation accordingly,
    recording the choice in an optional logger. */
module FeatureSelector {
  import opened Results

  /** A feature as the selector sees it: a name.  Its on/off answer is not
      stored; every `Create` call receives the answer the feature gives at
      that moment. */
  datatype Feature = Feature(name: string)

  /** The optional logger: absent (null), present, or present but throwing
      when asked to record an informational message. */
  datatype Logger = NoLogger | Logger | ThrowingLogger

  /** The two outcomes of a selection. */
  datatype Branch = On | Off

  /** A selector over the common type `T`: the feature, the two constructor
      functions with the names of the types they build, and the logger. */
  datatype Selector<T> = Selector(
    feature: Feature,
    onType: string,
    offType: string,
    on: () -> T,
    off: () -> T,
    logger: Logger)

  /** The result of one `Create` call: the built instance, the constructor
      functions invoked (in order), and the messages logged. */
  datatype Creation<T> = Creation(instance: T, invoked: seq<Branch>, log: seq<string>)

  /** The constructor.  Null arguments are refused in parameter order --
      feature, then on, then off -- each naming itself; the logger may be
      null. */
  function New<T>(feature: Option<Feature>, on: Option<() -> T>, off: Option<() -> T>,
                  onType: string, offType: string, logger: Logger): (r: Result<Selector<T>>)
    ensures r.Success? <==> feature.Some? && on.Some? && off.Some?
    ensures feature.None? ==> r.Failure? && r.error == ArgumentNull("feature")
    ensures feature.Some? && on.None? ==> r.Failure? && r.error == ArgumentNull("on")
    ensures feature.Some? && on.Some? && off.None? ==> r.Failure? && r.error == ArgumentNull("off")
    ensures r.Success? ==>
              && r.value.feature == feature.value
              && r.value.on == on.value && r.value.off == off.value
              && r.value.onType == onType && r.value.offType == offType
              && r.value.logger == logger
  {
    if feature.None? then Failure(ArgumentNull("feature"))
    else if on.None? then Failure(ArgumentNull("on"))
    else if off.None? then Failure(ArgumentNull("off"))
    else Success(Selector(feature.value, onType, offType, on.value, off.value, logger))
  }

  /** The branch a feature answer selects. */
  function BranchOf(isOn: bool): (b: Branch)
    ensures b == On <==> isOn
  {
    if isOn then On else Off
  }

  /** The word the log uses for an answer. */
  function OnText(isOn: bool): (w: string)
    ensures w == "on" || w == "off"
    ensures w == "on" <==> isOn
  {
    if isOn then "on" else "off"
  }

  /** The informational message recorded for a choice: a fixed opening, the
      type name, the feature name in quotes, and the answer in quotes at the
      end, with nothing else in between. */
  function LogText(typeName: string, featureName: string, isOn: bool): (m: string)
    ensures StartsWith(m, "Creating " + typeName + " because feature '")
    ensures EndsWith(m, "' is toggled '" + OnText(isOn) + "'.")
    ensures |m| == |"Creating  because feature '' is toggled ''."| + |typeName| + |featureName| + |OnText(isOn)|
    ensures var at := |"Creating " + typeName + " because feature '"|;
            m[at..at + |featureName|] == featureName
  {
    "Creating " + typeName + " because feature '" + featureName + "' is toggled '" + OnText(isOn) + "'."
  }

  /** `CreateAsync`: asks the feature once; builds the message naming the
      chosen type, the feature and the answer; hands it to the logger when
      there is one; then invokes exactly one constructor function.  A failing
      query propagates before anything is logged or built, and a throwing
      logger propagates before anything is built. */
  function Create<T>(sel: Selector<T>, answer: Result<bool>): (r: Result<Creation<T>>)
    ensures answer.Failure? ==> r.Failure? && r.error == answer.error
    ensures answer.Success? ==> (r.Success? <==> sel.logger != ThrowingLogger)
    ensures answer.Success? && r.Failure? ==> r.error == LoggerFailed
    ensures r.Success? ==> answer.Success?
    ensures r.Success? ==> r.value.invoked == [BranchOf(answer.value)]
    ensures r.Success? ==> r.value.instance == (if answer.value then sel.on() else sel.off())
    ensures r.Success? ==> (r.value.log == [] <==> sel.logger == NoLogger)
    ensures r.Success? && sel.logger == Logger ==>
              |r.value.log| == 1 &&
              r.value.log[0] == LogText(if answer.value then sel.onType else sel.offType,
                                        sel.feature.name, answer.value)
  {
    match answer
    case Failure(e) => Failure(e)
    case Success(isOn) =>
      var featureType := if isOn then sel.onType else sel.offType;
      var message := LogText(featureType, sel.feature.name, isOn);
      match sel.logger
      case ThrowingLogger => Failure(LoggerFailed)
      case NoLogger => Success(Build(sel, isOn, []))
      case Logger => Success(Build(sel, isOn, [message]))
  }

  /** Invokes the constructor function of the selected branch, and only that one. */
  function Build<T>(sel: Selector<T>, isOn: bool, log: seq<string>): (c: Creation<T>)
    ensures c.log == log
  {
    if isOn then Creation(sel.on(), [On], log) else Creation(sel.off(), [Off], log)
  }

  // ---------------------------------------------------------------------
  // What the log message says
  // ---------------------------------------------------------------------

  /** `s` begins with `head`. */
  predicate StartsWith(s: string, head: string) {
    |head| <= |s| && s[..|head|] == head
  }

  /** `part` occurs somewhere in `s`. */
  predicate Contains(s: string, part: string) {
    exists i :: 0 <= i <= |s| && StartsWith(s[i..], part)
  }

  /** `s` ends with `tail`. */
  predicate EndsWith(s: string, tail: string) {
    |tail| <= |s| && s[|s| - |tail|..] == tail
  }

  /** Reads the answer back out of a message: it was "on" exactly when the
      message ends with the quoted word on. */
  function BranchOfLog(message: string): Branch {
    if EndsWith(message, "'on'.") then On else Off
  }

  /** The message names the type built, the feature, and the answer in
      quotes at its end. */
  lemma LogNamesTheChoice(typeName: string, featureName: string, isOn: bool)
    ensures var m := LogText(typeName, featureName, isOn);
            && Contains(m, typeName)
            && Contains(m, featureName)
            && Contains(m, OnText(isOn))
            && EndsWith(m, "'" + OnText(isOn) + "'.")
  {
    var head := "Creating ";
    var mid := " because feature '";
    var tail := "' is toggled '";
    var m := LogText(typeName, featureName, isOn);
    var word := OnText(isOn);
    assert m == head + typeName + mid + featureName + tail + word + "'.";
    var i := |head|;
    assert StartsWith(m[i..], typeName);
    var j := |head| + |typeName| + |mid|;
    assert StartsWith(m[j..], featureName);
    var k := j + |featureName| + |tail|;
    assert StartsWith(m[k..], word);
    assert m[|m| - |"'" + word + "'."|..] == "'" + word + "'.";
  }

  /** The message determines the branch: reading the answer back out of the
      message recorded for a choice gives the branch that was chosen. */
  lemma LogDeterminesBranch(typeName: string, featureName: string, isOn: bool)
    ensures BranchOfLog(LogText(typeName, featureName, isOn)) == BranchOf(isOn)
  {
    var m := LogText(typeName, featureName, isOn);
    LogNamesTheChoice(typeName, featureName, isOn);
    if !isOn {
      assert m[|m| - 5..] == "off'.";
    }
  }

  // ---------------------------------------------------------------------
  // Properties of Create
  // ---------------------------------------------------------------------

  /** The logger affects only the log: with a null logger the instance built
      and the constructor invoked are those built and invoked with a logger. */
  lemma LoggerDoesNotAffectChoice<T>(sel: Selector<T>, isOn: bool)
    requires sel.logger != ThrowingLogger
    ensures var logged := Create(sel, Success(isOn));
            var silent := Create(sel.(logger := NoLogger), Success(isOn));
            && logged.Success? && silent.Success?
            && logged.value.instance == silent.value.instance
            && logged.value.invoked == silent.value.invoked
            && silent.value.log == []
  {
  }

  /** The answer is asked afresh at each call: two calls whose answers differ
      build from different constructor functions. */
  lemma AnswerChangeSwitchesBranch<T>(sel: Selector<T>, first: bool, second: bool)
    requires sel.logger != ThrowingLogger
    requires first != second
    ensures var a := Create(sel, Success(first));
            var b := Create(sel, Success(second));
            && a.Success? && b.Success?
            && a.value.invoked != b.value.invoked
  {
  }

  /** The recorded message agrees with what was built: it names the type of
      the constructor function that was invoked and reads back as that
      function's branch. */
  lemma LogMatchesBuiltBranch<T>(sel: Selector<T>, isOn: bool)
    requires sel.logger == Logger
    ensures var r := Create(sel, Success(isOn));
            && r.Success? && |r.value.log| == 1 && |r.value.invoked| == 1
            && Contains(r.value.log[0], if r.value.invoked[0] == On then sel.onType else sel.offType)
            && Contains(r.value.log[0], sel.feature.name)
            && BranchOfLog(r.value.log[0]) == r.value.invoked[0]
  {
    var typeName := if isOn then sel.onType else sel.offType;
    LogNamesTheChoice(typeName, sel.feature.name, isOn);
    LogDeterminesBranch(typeName, sel.feature.name, isOn);
  }
}
