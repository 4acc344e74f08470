# Hardening XML parser factories against external entities

This project models the part of Alfresco's `xmlfactory` library that hardens
JAXP parser factories against XML external-entity (XXE) attacks.

- `FactoryHelper` defines four feature names and uses the platform's
  secure-processing name, `XMLConstants.FEATURE_SECURE_PROCESSING`. It also
  defines two default lists. The enable list holds secure processing. The
  disable list holds external general entities, external parameter entities,
  `use-entity-resolver2` and loading of external DTDs, in that order.
- Its two `configureFactory` overloads write these lists into a factory. For a
  `DocumentBuilderFactory` they run `setFeature(name, true)` for each name of
  the enable list, then `setFeature(name, false)` for each name of the disable
  list. The `SAXParserFactory` overload does the same.
- `SAXParserFactoryXercesImpl` is a Xerces SAX factory that runs that hardening
  in its constructor. It uses two class-wide (static) lists, which its setters
  replace with copies.

The parser factory itself is foreign code. `Parsers.ParserFactory` stands in
for it. It holds a table from feature name to boolean. It also holds a fixed
map of the names its `setFeature` refuses, with the exception each refusal
raises. A Java `null` list is `None`, and a caller-owned Java list is a
`StringList` object.

The specification side lives in `FactoryHelper`:

- `Plan` is the sequence of `setFeature` calls a pass attempts.
- `FirstRefused` is the position of the first refused call.
- `Performed` is the calls before it.
- `Apply` is the feature table after a sequence of successful calls.

The methods are proved against these functions. The lemmas then state what
the resulting table is.

Three points about the code's behaviour:

- The code does not isolate failures per feature. The first refused feature
  raises an exception, which leaves the single `try` block
  (FactoryHelper.java:55-71). Every later write of both lists is skipped, and
  the writes already made stay.
- The default disable list has four entries (FactoryHelper.java:43-47).
- In the `DocumentBuilderFactory` overload, only `ParserConfigurationException`
  is caught (FactoryHelper.java:72). By Java's rules a `RuntimeException` from
  `setFeature` therefore escapes, just as it is explicitly rethrown in the SAX
  overload.

## Model

| member | source | states |
|---|---|---|
| FactoryHelper.SetFeatures | src/main/java/org/alfresco/xmlfactory/FactoryHelper.java:59-62 | one `for` loop: the table afterwards is the old table updated by the calls before the first refused name; the failure returned is that name's exception, or none if every call succeeded |
| FactoryHelper.ConfigureBothPasses | src/main/java/org/alfresco/xmlfactory/FactoryHelper.java:55-71 | the `try` block: enable pass then disable pass, each skipped for a `null` list; the table afterwards is the effect of exactly the calls before the first refusal in the whole plan, and the exception reported is the one raised by that refusal |
| FactoryHelper.ConfigureDocumentBuilderFactory | src/main/java/org/alfresco/xmlfactory/FactoryHelper.java:52-81 | writes before a refusal persist and none after it is made; a `ParserConfigurationException` is swallowed (normal return), any other exception escapes; with no refusal the call completes |
| FactoryHelper.ConfigureSaxParserFactory | src/main/java/org/alfresco/xmlfactory/FactoryHelper.java:83-117 | same table outcome; a `RuntimeException` propagates to the caller unchanged, every other exception (`ParserConfigurationException`, `SAXNotRecognizedException`, `SAXNotSupportedException`) is swallowed (normal return) |
| FactoryHelper.FirstRefused | src/main/java/org/alfresco/xmlfactory/FactoryHelper.java:55-71 | the point where the pass stops: no call before it is refused, and the call at it (if any) is refused |
| FactoryHelper.PlanOrder | src/main/java/org/alfresco/xmlfactory/FactoryHelper.java:57-70 | every enable write (value true) precedes every disable write (value false); each loop visits its list in order; a `null` list gives the same calls as an empty one |
| FactoryHelper.PerformedAppend | src/main/java/org/alfresco/xmlfactory/FactoryHelper.java:57-70 | a refusal in the enable pass ends the whole pass; otherwise the disable pass runs on the table left by the complete enable pass |
| FactoryHelper.ApplyUnlisted | src/main/java/org/alfresco/xmlfactory/FactoryHelper.java:61-68 | a feature no call names keeps its value, and stays unset if unset |
| FactoryHelper.ApplyWritesSets | src/main/java/org/alfresco/xmlfactory/FactoryHelper.java:59-62 | after a loop writes a value to each name of a list, every name of the list holds that value, duplicates included |
| FactoryHelper.LastWriteWins | src/main/java/org/alfresco/xmlfactory/FactoryHelper.java:57-70 | with no refusal: every disable-list name ends false (also when it is in the enable list), every other enable-list name ends true, every other feature keeps its prior state |
| FactoryHelper.PerformedIsTruncatedPlan | src/main/java/org/alfresco/xmlfactory/FactoryHelper.java:55-71 | the calls that take effect are a full pass over a prefix of the enable list and a prefix of the disable list, none of whose names is refused |
| FactoryHelper.ConfigureOutcome | src/main/java/org/alfresco/xmlfactory/FactoryHelper.java:55-80 | the final table for any refusals: last-write-wins over the performed prefixes; the disable prefix is non-empty only if the enable list was completed; the prefixes are the whole lists exactly when nothing was refused |
| FactoryHelper.UnlistedUntouched | src/main/java/org/alfresco/xmlfactory/FactoryHelper.java:52-81 | a feature named in neither list keeps its prior state whatever the factory refuses |
| FactoryHelper.DefaultsHarden | src/main/java/org/alfresco/xmlfactory/FactoryHelper.java:38-70 | the default lists on a factory that accepts their five names: the pass completes, secure processing is true and the four external-entity/DTD features are false |
| SaxFactory.FeatureLists.constructor | src/main/java/org/alfresco/xmlfactory/SAXParserFactoryXercesImpl.java:28-29 | before any setter runs, the class-wide lists equal the default enable and disable lists |
| SaxFactory.SaxParserFactoryXercesImpl.constructor | src/main/java/org/alfresco/xmlfactory/SAXParserFactoryXercesImpl.java:31-35 | a new instance starts from the parser's defaults and gets exactly the current class-wide lists applied by the SAX `configureFactory`, with its completion |
| SaxFactory.SaxParserFactoryXercesImpl.SetFeaturesToEnable | src/main/java/org/alfresco/xmlfactory/SAXParserFactoryXercesImpl.java:37-40 | the class-wide enable list becomes a copy of the argument's items; the disable list is untouched; a `null` argument throws and changes nothing |
| SaxFactory.SaxParserFactoryXercesImpl.SetFeaturesToDisable | src/main/java/org/alfresco/xmlfactory/SAXParserFactoryXercesImpl.java:42-45 | the class-wide disable list becomes a copy of the argument's items; the enable list is untouched; a `null` argument throws and changes nothing |
| SaxFactory.SetterReachesOnlyLaterFactories | src/main/java/org/alfresco/xmlfactory/SAXParserFactoryXercesImpl.java:28-45 | the enable setter, called through one instance, changes what a later-constructed instance gets, leaves the instance it was called on unchanged, and is not affected when the caller later changes its own list |
| SaxFactory.DefaultFactoryIsHardened | src/test/java/org/alfresco/xmlfactory/AppTest.java:90-104 | a SAX factory built with the default lists on a parser that accepts them completes construction with secure processing on and the four external-entity/DTD features off |

## Left out

- The Xerces factories' internals are not modelled. `ParserFactory` is a feature table with a fixed set of refused names. A refusal depends only on the name: not on the value written, and not on earlier writes. A refused `setFeature` leaves the table unchanged, and a given name is always refused the same way.
- One `ParserFactory` class stands for both factory kinds. The model therefore admits a `DocumentBuilderFactory` that raises `SAXNotRecognizedException` or `SAXNotSupportedException`, which Java cannot produce. `ConfigureDocumentBuilderFactory` reports those as thrown.
- A `null` element in a feature list makes `setFeature(null, …)` throw a `NullPointerException`. The model has no `null` names; that case is expressible only as a name refused with `Runtime`.
- SetterReachesOnlyLaterFactories: exercises only the enable setter; the disable setter's contract is symmetric, with the roles of the two lists swapped.
- Logging: the warning logged when an exception is swallowed has no behavioural effect. It is represented only by the `Swallowed` completion.
- `DocumentBuilderFactoryXercesImpl` is not part of this model. It calls `getConfiguration`, a whitelist-aware four-argument `configureFactory` and `debugNewParser`, none of which is in `FactoryHelper.java`.
- Configuration resolution from system properties, `lib/*.properties` and `META-INF/services` is not part of this model. Neither is the call-stack whitelist of trusted callers. Both have no implementation in the modelled files.
- Thread safety of the static fields and of static initialisation is not modelled: the model is single-threaded.
- Service-locator registration through `newInstance()` is JVM plumbing and is left out. So are the `xIncludeAware` and `expandEntityReferences` settings, which the modelled code never touches.
- The `SAXParserFactoryImpl` constructor (`super()`) is represented by its resulting feature table, the `defaults` parameter. A constructor whose hardening call throws is represented by the `Thrown` value of `configured`, not by an exception.
