/** `SAXParserFactoryXercesImpl`: a Xerces SAX parser factory that hardens
    itself on construction with two class-wide feature lists. */
module SaxFactory {
  import opened Parsers
  import opened FactoryHelper

  /** The two `static` fields of `SAXParserFactoryXercesImpl`. Java keeps one
      copy per class; here it is one object that every instance refers to. */
  class FeatureLists {
    var featuresToEnable: seq<string>
    var featuresToDisable: seq<string>

    /** Static initialisation: both lists start as the defaults of `FactoryHelper`. */
    constructor ()
      ensures featuresToEnable == DefaultFeaturesToEnable
      ensures featuresToDisable == DefaultFeaturesToDisable
    {
      featuresToEnable := DefaultFeaturesToEnable;
      featuresToDisable := DefaultFeaturesToDisable;
    }
  }

  class SaxParserFactoryXercesImpl {
    /** The class-wide lists, shared with every other instance. */
    const statics: FeatureLists
    /** The inherited `SAXParserFactoryImpl` state of this instance. */
    const parser: ParserFactory
    /** How the hardening call in the constructor ended. `Thrown` means the
        Java constructor itself throws and no instance reaches the caller. */
    const configured: Completion

    /** `super()` yields a factory holding the parser's own `defaults`; then
        `configureFactory` applies the class-wide lists as they are now. */
    constructor (statics: FeatureLists, defaults: map<string, bool>, refused: map<string, Failure>)
      ensures this.statics == statics && fresh(parser) && parser.refused == refused
      ensures var plan := Plan(Some(statics.featuresToEnable), Some(statics.featuresToDisable));
              var k := FirstRefused(plan, refused);
              parser.features == Apply(defaults, Performed(plan, refused)) &&
              configured == if k == |plan| then Completed else SaxCatch(refused[plan[k].name])
    {
      var p := new ParserFactory(defaults, refused);
      var c := ConfigureSaxParserFactory(p, Some(statics.featuresToEnable), Some(statics.featuresToDisable));
      this.statics := statics;
      parser := p;
      configured := c;
    }

    /** `setFeaturesToEnable(list)`: stores a copy of the caller's list for
        every factory constructed from now on. `new ArrayList(null)` throws a
        `NullPointerException`, leaving the stored list as it was. */
    method SetFeaturesToEnable(list: StringList?) returns (c: Completion)
      modifies statics
      ensures list == null ==> c == Thrown(Runtime) && unchanged(statics)
      ensures list != null ==> c == Completed && statics.featuresToEnable == list.items
      ensures statics.featuresToDisable == old(statics.featuresToDisable)
    {
      if list == null {
        c := Thrown(Runtime);
      } else {
        statics.featuresToEnable := list.items;
        c := Completed;
      }
    }

    /** `setFeaturesToDisable(list)`: as `SetFeaturesToEnable`, for the other list. */
    method SetFeaturesToDisable(list: StringList?) returns (c: Completion)
      modifies statics
      ensures list == null ==> c == Thrown(Runtime) && unchanged(statics)
      ensures list != null ==> c == Completed && statics.featuresToDisable == list.items
      ensures statics.featuresToEnable == old(statics.featuresToEnable)
    {
      if list == null {
        c := Thrown(Runtime);
      } else {
        statics.featuresToDisable := list.items;
        c := Completed;
      }
    }
  }

  /** A factory built before any setter runs, on a parser that accepts the
      default features, ends with secure processing on and the four
      external-entity and DTD features off, and the constructor returns. */
  method DefaultFactoryIsHardened(defaults: map<string, bool>) returns (f: SaxParserFactoryXercesImpl)
    ensures fresh(f.parser) && f.configured == Completed
    ensures var r := f.parser.features;
            FeatureSecureProcessing in r && r[FeatureSecureProcessing] &&
            FeatureExternalGeneralEntities in r && !r[FeatureExternalGeneralEntities] &&
            FeatureExternalParameterEntities in r && !r[FeatureExternalParameterEntities] &&
            FeatureUseEntityResolver2 in r && !r[FeatureUseEntityResolver2] &&
            FeatureLoadExternalDtd in r && !r[FeatureLoadExternalDtd]
  {
    var statics := new FeatureLists();
    f := new SaxParserFactoryXercesImpl(statics, defaults, map[]);
    DefaultsHarden(defaults, map[]);
  }

  /** The lists are class-wide and copied on set: a setter called through one
      instance reaches a factory constructed afterwards, leaves the factory it
      was called on as configured, and is not affected when the caller later
      changes its own list. */
  method SetterReachesOnlyLaterFactories(a: SaxParserFactoryXercesImpl, list: StringList, extra: string,
                                         defaults: map<string, bool>, refused: map<string, Failure>)
    returns (b: SaxParserFactoryXercesImpl)
    modifies a.statics, list
    ensures b.statics == a.statics && fresh(b.parser) && b.parser != a.parser
    ensures a.parser.features == old(a.parser.features)
    ensures list.items == old(list.items) + [extra]
    ensures a.statics.featuresToEnable == old(list.items)
    ensures a.statics.featuresToDisable == old(a.statics.featuresToDisable)
    ensures b.parser.features ==
              Apply(defaults, Performed(Plan(Some(old(list.items)), Some(old(a.statics.featuresToDisable))), refused))
  {
    var _ := a.SetFeaturesToEnable(list);
    list.Add(extra);
    b := new SaxParserFactoryXercesImpl(a.statics, defaults, refused);
  }
}
