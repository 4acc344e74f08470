/** The parts of the JAXP / Xerces parser factories that the hardening code
    touches, seen from outside: a table of boolean features and a `setFeature`
    operation that either stores a value or throws. Which names a concrete
    parser refuses, and with which exception, is not visible in the hardening
    code, so it is a parameter of each factory object. */
module Parsers {

  datatype Option<+T> = None | Some(value: T)

  /** The exceptions `setFeature` can raise. `DocumentBuilderFactory.setFeature`
      declares `ParserConfigurationException`; `SAXParserFactory.setFeature`
      declares `ParserConfigurationException`, `SAXNotRecognizedException` and
      `SAXNotSupportedException`; either may also raise an unchecked
      `RuntimeException`. */
  datatype Failure =
    | ParserConfiguration
    | SaxNotRecognized
    | SaxNotSupported
    | Runtime

  /** How a call ended, as its caller sees it: it returned with nothing to
      report, it returned after catching (and logging) an exception, or an
      exception escaped to the caller. */
  datatype Completion = Completed | Swallowed(caught: Failure) | Thrown(raised: Failure)

  /** A parser factory instance: the feature values it holds and the fixed
      set of names its `setFeature` refuses. A name absent from `features`
      has the implementation's own default value. */
  class ParserFactory {
    var features: map<string, bool>
    const refused: map<string, Failure>

    constructor (defaults: map<string, bool>, refused: map<string, Failure>)
      ensures features == defaults && this.refused == refused
    {
      features := defaults;
      this.refused := refused;
    }

    /** `setFeature(name, value)`: a refused name throws and changes nothing;
        any other name is stored with the given value. */
    method SetFeature(name: string, value: bool) returns (failure: Option<Failure>)
      modifies this
      ensures name in refused ==> failure == Some(refused[name]) && features == old(features)
      ensures name !in refused ==> failure == None && features == old(features)[name := value]
    {
      if name in refused {
        failure := Some(refused[name]);
      } else {
        failure := None;
        features := features[name := value];
      }
    }
  }

  /** A caller-owned, mutable `java.util.List<String>`. */
  class StringList {
    var items: seq<string>

    constructor (items: seq<string>)
      ensures this.items == items
    {
      this.items := items;
    }

    method Add(item: string)
      modifies this
      ensures items == old(items) + [item]
    {
      items := items + [item];
    }
  }
}
