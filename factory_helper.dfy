/** `FactoryHelper`: the feature names and default lists used to harden XML
    parser factories against external-entity attacks, and the two
    `configureFactory` overloads that write them into a factory. */
module FactoryHelper {
  import opened Parsers

  // The names are assembled from pieces of at most 40 characters: the verifier
  // does not look at the individual characters of a longer string literal, and
  // `DefaultsHarden` needs them to tell the names apart.
  const SaxFeaturePrefix := "http://xml.org/sax/features/"
  const FeatureExternalGeneralEntities := SaxFeaturePrefix + "external-general-entities"
  const FeatureExternalParameterEntities := SaxFeaturePrefix + "external-parameter-entities"
  const FeatureUseEntityResolver2 := SaxFeaturePrefix + "use-entity-resolver2"
  const FeatureLoadExternalDtd := "http://apache.org/xml/features/" + "nonvalidating/load-external-dtd"
  /** `XMLConstants.FEATURE_SECURE_PROCESSING` of the Java platform. */
  const FeatureSecureProcessing := "http://javax.xml.XMLConstants/" + "feature/secure-processing"

  const DefaultFeaturesToDisable: seq<string> :=
    [FeatureExternalGeneralEntities, FeatureExternalParameterEntities,
     FeatureUseEntityResolver2, FeatureLoadExternalDtd]

  const DefaultFeaturesToEnable: seq<string> := [FeatureSecureProcessing]

  // ---------------------------------------------------------------------------
  // Specification: the writes one configuration pass attempts and their effect
  // ---------------------------------------------------------------------------

  /** One `setFeature(name, value)` call. */
  datatype Write = Write(name: string, value: bool)

  /** A Java list argument that may be `null`; `null` contributes no writes. */
  function OrEmpty(list: Option<seq<string>>): seq<string>
  {
    if list.Some? then list.value else []
  }

  /** The calls one loop makes: every name of the list, in order, with one value. */
  function Writes(names: seq<string>, value: bool): seq<Write>
  {
    seq(|names|, i requires 0 <= i < |names| => Write(names[i], value))
  }

  /** The calls `configureFactory` attempts: the enable loop, then the disable loop. */
  function Plan(featuresToEnable: Option<seq<string>>, featuresToDisable: Option<seq<string>>): seq<Write>
  {
    Writes(OrEmpty(featuresToEnable), true) + Writes(OrEmpty(featuresToDisable), false)
  }

  /** The position of the first call the factory refuses, or `|w|` if it
      refuses none. */
  function FirstRefused(w: seq<Write>, refused: map<string, Failure>): (k: nat)
    ensures k <= |w|
    ensures forall i :: 0 <= i < k ==> w[i].name !in refused
    ensures k < |w| ==> w[k].name in refused
  {
    if w == [] || w[0].name in refused then 0 else 1 + FirstRefused(w[1..], refused)
  }

  /** The feature table after the calls of `w` succeed one after the other. */
  function Apply(features: map<string, bool>, w: seq<Write>): map<string, bool>
    decreases |w|
  {
    if w == [] then features else Apply(features[w[0].name := w[0].value], w[1..])
  }

  /** The calls that take effect: those before the first refused one. The
      exception raised there leaves the `try` block, so nothing after it runs. */
  function Performed(w: seq<Write>, refused: map<string, Failure>): seq<Write>
  {
    w[..FirstRefused(w, refused)]
  }

  /** The `catch` clause of the `DocumentBuilderFactory` overload: it catches
      `ParserConfigurationException` only; anything else leaves the method. */
  function DocumentBuilderCatch(f: Failure): Completion
  {
    if f == ParserConfiguration then Swallowed(f) else Thrown(f)
  }

  /** The `catch` clauses of the `SAXParserFactory` overload: a
      `RuntimeException` is rethrown, every other exception is caught. */
  function SaxCatch(f: Failure): Completion
  {
    if f == Runtime then Thrown(f) else Swallowed(f)
  }

  // ---------------------------------------------------------------------------
  // The two overloads of configureFactory
  // ---------------------------------------------------------------------------

  /** One `for` loop of `configureFactory`: `setFeature(name, value)` for each
      name in turn; the first exception ends the loop and is handed back. */
  method SetFeatures(factory: ParserFactory, names: seq<string>, value: bool) returns (failure: Option<Failure>)
    modifies factory
    ensures var w := Writes(names, value);
            var k := FirstRefused(w, factory.refused);
            factory.features == Apply(old(factory.features), w[..k]) &&
            failure == if k < |w| then Some(factory.refused[names[k]]) else None
  {
    ghost var w := Writes(names, value);
    var i := 0;
    while i < |names|
      invariant 0 <= i <= |names|
      invariant forall j :: 0 <= j < i ==> names[j] !in factory.refused
      invariant factory.features == Apply(old(factory.features), w[..i])
    {
      failure := factory.SetFeature(names[i], value);
      if failure.Some? {
        FirstRefusedUnique(w, factory.refused, i);
        return;
      }
      ApplyAppend(old(factory.features), w[..i], [w[i]]);
      assert w[..i + 1] == w[..i] + [w[i]];
      i := i + 1;
    }
    failure := None;
    FirstRefusedUnique(w, factory.refused, |w|);
  }

  /** `configureFactory(DocumentBuilderFactory, featuresToEnable, featuresToDisable)`.
      The writes before the first refused feature stay in place; a
      `ParserConfigurationException` is logged and swallowed. */
  method ConfigureDocumentBuilderFactory(factory: ParserFactory,
                                         featuresToEnable: Option<seq<string>>,
                                         featuresToDisable: Option<seq<string>>)
    returns (c: Completion)
    modifies factory
    ensures var plan := Plan(featuresToEnable, featuresToDisable);
            var k := FirstRefused(plan, factory.refused);
            factory.features == Apply(old(factory.features), Performed(plan, factory.refused)) &&
            c == if k == |plan| then Completed else DocumentBuilderCatch(factory.refused[plan[k].name])
  {
    var failure := ConfigureBothPasses(factory, featuresToEnable, featuresToDisable);
    c := if failure.Some? then DocumentBuilderCatch(failure.value) else Completed;
  }

  /** `configureFactory(SAXParserFactory, featuresToEnable, featuresToDisable)`:
      the same passes, but a `RuntimeException` is rethrown to the caller while
      any other exception is logged and swallowed. */
  method ConfigureSaxParserFactory(factory: ParserFactory,
                                   featuresToEnable: Option<seq<string>>,
                                   featuresToDisable: Option<seq<string>>)
    returns (c: Completion)
    modifies factory
    ensures var plan := Plan(featuresToEnable, featuresToDisable);
            var k := FirstRefused(plan, factory.refused);
            factory.features == Apply(old(factory.features), Performed(plan, factory.refused)) &&
            c == if k == |plan| then Completed else SaxCatch(factory.refused[plan[k].name])
  {
    var failure := ConfigureBothPasses(factory, featuresToEnable, featuresToDisable);
    c := if failure.Some? then SaxCatch(failure.value) else Completed;
  }

  /** The `try` block shared by both overloads: the enable loop (skipped for a
      `null` list), then the disable loop (likewise), leaving at the first
      exception. */
  method ConfigureBothPasses(factory: ParserFactory,
                             featuresToEnable: Option<seq<string>>,
                             featuresToDisable: Option<seq<string>>)
    returns (failure: Option<Failure>)
    modifies factory
    ensures var plan := Plan(featuresToEnable, featuresToDisable);
            var k := FirstRefused(plan, factory.refused);
            factory.features == Apply(old(factory.features), Performed(plan, factory.refused)) &&
            failure == if k == |plan| then None else Some(factory.refused[plan[k].name])
  {
    ghost var before := factory.features;
    ghost var enables := Writes(OrEmpty(featuresToEnable), true);
    ghost var disables := Writes(OrEmpty(featuresToDisable), false);
    ghost var refused := factory.refused;
    assert Plan(featuresToEnable, featuresToDisable) == enables + disables;
    PerformedAppend(before, enables, disables, refused);
    failure := None;
    if featuresToEnable.Some? {
      failure := SetFeatures(factory, featuresToEnable.value, true);
    }
    ghost var k1 := FirstRefused(enables, refused);
    if failure.None? {
      assert enables[..k1] == enables;
      if featuresToDisable.Some? {
        failure := SetFeatures(factory, featuresToDisable.value, false);
      }
      ghost var k2 := FirstRefused(disables, refused);
      assert disables == [] ==> disables[..k2] == [];
      assert k2 < |disables| ==> (enables + disables)[|enables| + k2] == disables[k2];
    } else {
      assert (enables + disables)[k1] == enables[k1];
    }
  }

  // ---------------------------------------------------------------------------
  // Lemmas
  // ---------------------------------------------------------------------------

  /** `FirstRefused` is the unique position before which nothing is refused
      and at which (unless it is the end) something is. */
  lemma FirstRefusedUnique(w: seq<Write>, refused: map<string, Failure>, k: nat)
    requires k <= |w|
    requires forall i :: 0 <= i < k ==> w[i].name !in refused
    requires k < |w| ==> w[k].name in refused
    ensures FirstRefused(w, refused) == k
  {
  }

  /** Running two batches of writes is running their concatenation. */
  lemma {:induction false} ApplyAppend(features: map<string, bool>, w1: seq<Write>, w2: seq<Write>)
    ensures Apply(features, w1 + w2) == Apply(Apply(features, w1), w2)
    decreases |w1|
  {
    if w1 != [] {
      assert (w1 + w2)[1..] == w1[1..] + w2;
      ApplyAppend(features[w1[0].name := w1[0].value], w1[1..], w2);
    } else {
      assert w1 + w2 == w2;
    }
  }

  /** A refusal in the enable pass ends the whole pass; without one, the
      disable pass runs on the table the enable pass left. */
  lemma PerformedAppend(features: map<string, bool>, w1: seq<Write>, w2: seq<Write>, refused: map<string, Failure>)
    ensures var k1 := FirstRefused(w1, refused);
            var k := FirstRefused(w1 + w2, refused);
            if k1 < |w1| then
              k == k1 && (w1 + w2)[..k] == w1[..k1]
            else
              k == |w1| + FirstRefused(w2, refused) &&
              Apply(features, (w1 + w2)[..k]) == Apply(Apply(features, w1), w2[..FirstRefused(w2, refused)])
  {
    var k1 := FirstRefused(w1, refused);
    if k1 < |w1| {
      FirstRefusedUnique(w1 + w2, refused, k1);
      assert (w1 + w2)[..k1] == w1[..k1];
    } else {
      var k2 := FirstRefused(w2, refused);
      FirstRefusedUnique(w1 + w2, refused, |w1| + k2);
      assert (w1 + w2)[..|w1| + k2] == w1 + w2[..k2];
      ApplyAppend(features, w1, w2[..k2]);
    }
  }

  /** A feature that no write names keeps its prior value, and stays unset if
      it was unset. */
  lemma {:induction false} ApplyUnlisted(features: map<string, bool>, w: seq<Write>, name: string)
    requires forall i :: 0 <= i < |w| ==> w[i].name != name
    ensures name in Apply(features, w) <==> name in features
    ensures name in features ==> Apply(features, w)[name] == features[name]
    decreases |w|
  {
    if w != [] {
      assert w[0].name != name;
      ApplyUnlisted(features[w[0].name := w[0].value], w[1..], name);
    }
  }

  /** After a loop writes `value` to every name of a list, each of those
      names holds `value`, however often it occurs in the list. */
  lemma {:induction false} ApplyWritesSets(features: map<string, bool>, names: seq<string>, value: bool, name: string)
    requires name in names
    ensures name in Apply(features, Writes(names, value))
    ensures Apply(features, Writes(names, value))[name] == value
    decreases |names|
  {
    var w := Writes(names, value);
    var next := features[names[0] := value];
    assert w[1..] == Writes(names[1..], value);
    if name in names[1..] {
      ApplyWritesSets(next, names[1..], value, name);
    } else {
      assert names[0] == name;
      forall i | 0 <= i < |w[1..]|
        ensures w[1..][i].name != name
      {
        assert w[1..][i].name == names[1..][i];
      }
      ApplyUnlisted(next, w[1..], name);
    }
  }

  /** Every enable write comes before every disable write, and each loop
      visits its list in order; a `null` list is the same as an empty one. */
  lemma PlanOrder(featuresToEnable: Option<seq<string>>, featuresToDisable: Option<seq<string>>)
    ensures var plan := Plan(featuresToEnable, featuresToDisable);
            var e, d := OrEmpty(featuresToEnable), OrEmpty(featuresToDisable);
            |plan| == |e| + |d| &&
            (forall i :: 0 <= i < |plan| ==> (plan[i].value <==> i < |e|)) &&
            (forall i :: 0 <= i < |e| ==> plan[i].name == e[i]) &&
            (forall j :: 0 <= j < |d| ==> plan[|e| + j].name == d[j])
    ensures Plan(None, featuresToDisable) == Plan(Some([]), featuresToDisable)
    ensures Plan(featuresToEnable, None) == Plan(featuresToEnable, Some([]))
  {
  }

  /** The result of a pass in which every call succeeds: every name of the
      disable list ends `false` (last write wins over an enable of the same
      name), every other name of the enable list ends `true`, and every name in
      neither list keeps its prior state. */
  lemma LastWriteWins(features: map<string, bool>, featuresToEnable: seq<string>, featuresToDisable: seq<string>)
    ensures var r := Apply(features, Plan(Some(featuresToEnable), Some(featuresToDisable)));
            (forall name :: name in featuresToDisable ==> name in r && !r[name]) &&
            (forall name :: name in featuresToEnable && name !in featuresToDisable ==> name in r && r[name]) &&
            (forall name :: name !in featuresToEnable && name !in featuresToDisable ==>
               (name in r <==> name in features) && (name in features ==> r[name] == features[name]))
  {
    var enables := Writes(featuresToEnable, true);
    var disables := Writes(featuresToDisable, false);
    var mid := Apply(features, enables);
    ApplyAppend(features, enables, disables);
    var r := Apply(mid, disables);
    forall name | name in featuresToDisable
      ensures name in r && !r[name]
    {
      ApplyWritesSets(mid, featuresToDisable, false, name);
    }
    forall name | name in featuresToEnable && name !in featuresToDisable
      ensures name in r && r[name]
    {
      ApplyWritesSets(features, featuresToEnable, true, name);
      NotWritten(mid, featuresToDisable, false, name);
    }
    forall name | name !in featuresToEnable && name !in featuresToDisable
      ensures (name in r <==> name in features) && (name in features ==> r[name] == features[name])
    {
      NotWritten(features, featuresToEnable, true, name);
      NotWritten(mid, featuresToDisable, false, name);
    }
  }

  /** `ApplyUnlisted` for one loop over a list that does not contain `name`. */
  lemma NotWritten(features: map<string, bool>, names: seq<string>, value: bool, name: string)
    requires name !in names
    ensures name in Apply(features, Writes(names, value)) <==> name in features
    ensures name in features ==> Apply(features, Writes(names, value))[name] == features[name]
  {
    var w := Writes(names, value);
    forall i | 0 <= i < |w|
      ensures w[i].name != name
    {
      assert w[i].name == names[i];
    }
    ApplyUnlisted(features, w, name);
  }

  /** The names of each list that are written before the first refusal:
      a prefix of the enable list, and a prefix of the disable list that is
      non-empty only if the whole enable list was written. */
  function PerformedLists(featuresToEnable: Option<seq<string>>, featuresToDisable: Option<seq<string>>,
                          refused: map<string, Failure>): (seq<string>, seq<string>)
  {
    var e, d := OrEmpty(featuresToEnable), OrEmpty(featuresToDisable);
    var k := FirstRefused(Plan(featuresToEnable, featuresToDisable), refused);
    if k <= |e| then (e[..k], []) else (e, d[..k - |e|])
  }

  /** The calls that take effect are exactly a full pass over the two
      truncated lists, none of whose names is refused. */
  lemma PerformedIsTruncatedPlan(featuresToEnable: Option<seq<string>>, featuresToDisable: Option<seq<string>>,
                                 refused: map<string, Failure>)
    ensures var (e, d) := PerformedLists(featuresToEnable, featuresToDisable, refused);
            Performed(Plan(featuresToEnable, featuresToDisable), refused) == Plan(Some(e), Some(d)) &&
            (forall name :: name in e ==> name !in refused) &&
            (forall name :: name in d ==> name !in refused)
  {
    var plan := Plan(featuresToEnable, featuresToDisable);
    var e0, d0 := OrEmpty(featuresToEnable), OrEmpty(featuresToDisable);
    var k := FirstRefused(plan, refused);
    var (e, d) := PerformedLists(featuresToEnable, featuresToDisable, refused);
    var truncated := Plan(Some(e), Some(d));
    assert |plan[..k]| == |truncated|;
    forall i | 0 <= i < k
      ensures plan[..k][i] == truncated[i]
    {
      if i < |e0| {
        assert plan[i] == Write(e0[i], true);
      } else {
        assert plan[i] == Write(d0[i - |e0|], false);
      }
    }
    forall name | name in e
      ensures name !in refused
    {
      var i :| 0 <= i < |e| && e[i] == name;
      assert plan[i].name == name;
    }
    forall name | name in d
      ensures name !in refused
    {
      var j :| 0 <= j < |d| && d[j] == name;
      assert plan[|e0| + j].name == name;
    }
  }

  /** The disable list is reached only once the enable list is done, and the
      truncated lists are the whole lists precisely when no call is refused. */
  lemma PerformedListsWhole(featuresToEnable: Option<seq<string>>, featuresToDisable: Option<seq<string>>,
                            refused: map<string, Failure>)
    ensures var (e, d) := PerformedLists(featuresToEnable, featuresToDisable, refused);
            var plan := Plan(featuresToEnable, featuresToDisable);
            (d != [] ==> e == OrEmpty(featuresToEnable)) &&
            (e == OrEmpty(featuresToEnable) && d == OrEmpty(featuresToDisable) <==>
               FirstRefused(plan, refused) == |plan|)
  {
  }

  /** The state a factory is left in by either overload, whether or not a
      feature was refused: the last-write-wins outcome for the truncated lists
      of `PerformedLists`, which are the full lists when nothing is refused. */
  lemma ConfigureOutcome(features: map<string, bool>, featuresToEnable: Option<seq<string>>,
                         featuresToDisable: Option<seq<string>>, refused: map<string, Failure>)
    ensures var (e, d) := PerformedLists(featuresToEnable, featuresToDisable, refused);
            var plan := Plan(featuresToEnable, featuresToDisable);
            var r := Apply(features, Performed(plan, refused));
            (d != [] ==> e == OrEmpty(featuresToEnable)) &&
            (e == OrEmpty(featuresToEnable) && d == OrEmpty(featuresToDisable) <==>
               FirstRefused(plan, refused) == |plan|) &&
            (forall name :: name in d ==> name in r && !r[name]) &&
            (forall name :: name in e && name !in d ==> name in r && r[name]) &&
            (forall name :: name !in e && name !in d ==>
               (name in r <==> name in features) && (name in features ==> r[name] == features[name]))
  {
    var (e, d) := PerformedLists(featuresToEnable, featuresToDisable, refused);
    PerformedIsTruncatedPlan(featuresToEnable, featuresToDisable, refused);
    PerformedListsWhole(featuresToEnable, featuresToDisable, refused);
    LastWriteWins(features, e, d);
  }

  /** A feature named in neither list keeps its prior state, whatever the
      factory refuses: `setFeature` is only called for listed names. */
  lemma UnlistedUntouched(features: map<string, bool>, featuresToEnable: Option<seq<string>>,
                          featuresToDisable: Option<seq<string>>, refused: map<string, Failure>, name: string)
    requires name !in OrEmpty(featuresToEnable) && name !in OrEmpty(featuresToDisable)
    ensures var r := Apply(features, Performed(Plan(featuresToEnable, featuresToDisable), refused));
            (name in r <==> name in features) && (name in features ==> r[name] == features[name])
  {
    ConfigureOutcome(features, featuresToEnable, featuresToDisable, refused);
  }

  /** With the default lists and a factory that accepts all five default
      features, the pass completes with secure processing on and the four
      external-entity and DTD features off. */
  lemma DefaultsHarden(features: map<string, bool>, refused: map<string, Failure>)
    requires FeatureSecureProcessing !in refused
    requires forall name :: name in DefaultFeaturesToDisable ==> name !in refused
    ensures var plan := Plan(Some(DefaultFeaturesToEnable), Some(DefaultFeaturesToDisable));
            var r := Apply(features, Performed(plan, refused));
            FirstRefused(plan, refused) == |plan| &&
            FeatureSecureProcessing in r && r[FeatureSecureProcessing] &&
            FeatureExternalGeneralEntities in r && !r[FeatureExternalGeneralEntities] &&
            FeatureExternalParameterEntities in r && !r[FeatureExternalParameterEntities] &&
            FeatureUseEntityResolver2 in r && !r[FeatureUseEntityResolver2] &&
            FeatureLoadExternalDtd in r && !r[FeatureLoadExternalDtd]
  {
    var plan := Plan(Some(DefaultFeaturesToEnable), Some(DefaultFeaturesToDisable));
    forall i | 0 <= i < |plan|
      ensures plan[i].name !in refused
    {
      assert i == 0 || plan[i].name == DefaultFeaturesToDisable[i - 1];
    }
    FirstRefusedUnique(plan, refused, |plan|);
    // The names differ in their eighth character ("http://j..." against
    // "http://x..." and "http://a..."), so secure processing is not disabled.
    assert FeatureSecureProcessing !in DefaultFeaturesToDisable by {
      assert FeatureSecureProcessing[7] == 'j';
      assert FeatureExternalGeneralEntities[7] == FeatureExternalParameterEntities[7] == 'x';
      assert FeatureUseEntityResolver2[7] == 'x' && FeatureLoadExternalDtd[7] == 'a';
    }
    assert plan[..|plan|] == plan;
    LastWriteWins(features, DefaultFeaturesToEnable, DefaultFeaturesToDisable);
    assert FeatureSecureProcessing in DefaultFeaturesToEnable;
    assert DefaultFeaturesToDisable[0] == FeatureExternalGeneralEntities;
    assert DefaultFeaturesToDisable[1] == FeatureExternalParameterEntities;
  }
}
