/**
 * The decision tables of AndroidMetawidget: the label shown for a property
 * (getLabelString) and the View built for it in read-only mode
 * (buildReadOnlyWidget) and in editable mode (buildActiveWidget). Views are
 * described by kind and configuration; creating them is the toolkit's job.
 */
module AndroidWidgetChoice {
  import opened JavaLang
  import opened ClassKinds

  /**
   * The attribute map of one property, reduced to what AndroidMetawidget reads.
   * Option fields are attributes.get(...) (None for null); the flags are
   * TRUE.equals(attributes.get(...)); typeClass is ClassUtils.niceForName(typeName).
   */
  datatype AndroidAttributes = AndroidAttributes(
    name: Option<string>,
    labelText: Option<string>,
    hidden: bool,
    masked: bool,
    large: bool,
    dontExpand: bool,
    lookup: Option<string>,
    lookupLabels: Option<string>,
    typeName: Option<string>,
    typeClass: ClassKind,
    maximumLength: Option<string>)

  /** The input method installed on an EditText. */
  datatype InputMethod = DefaultInput | DigitsInput | DateInput

  /** The Views the metawidget creates, with the settings it gives them. */
  datatype AndroidWidget =
    | TextView(visible: bool)
    | EditText(inputMethod: InputMethod, password: bool, minLines: Option<int>, maximumLength: Option<string>)
    | CheckBox
    | Spinner(values: seq<Option<string>>, labels: Option<seq<Option<string>>>)
    | BooleanSpinner(choices: seq<Option<bool>>)
    | ListView(enabled: bool)
    | NestedMetawidget

  /** LIST_BOOLEAN_VALUES: a Boolean property may also be left unset. */
  const LIST_BOOLEAN_VALUES: seq<Option<bool>> := [None, Some(true), Some(false)]

  /** Not null and not "". */
  predicate NonEmpty(o: Option<string>) {
    o.Some? && o.value != ""
  }

  // ---------------------------------------------------------------------------
  // Labels
  // ---------------------------------------------------------------------------

  /** getLocalizedKey: Android has no resource bundles, so nothing is ever localized. */
  function LocalizedKey(key: string): Option<string> {
    None
  }

  /**
   * getLabelString. `uncamelCase` is StringUtils.uncamelCase. None means the
   * label was forced blank: no label is shown at all.
   */
  function LabelString(attributes: Option<AndroidAttributes>, uncamelCase: string -> string): (r: Option<string>)
    // only an explicit empty label suppresses the label
    ensures r.None? <==> attributes.Some? && attributes.value.labelText == Some("")
    // an explicit label is shown trimmed
    ensures attributes.Some? && NonEmpty(attributes.value.labelText) ==>
              r.Some? && IsTrimOf(r.value, attributes.value.labelText.value)
              && (r.value == [] || (!IsTrimmable(r.value[0]) && !IsTrimmable(r.value[|r.value| - 1])))
    // without a label, the name is uncamel-cased
    ensures attributes.Some? && attributes.value.labelText.None? && attributes.value.name.Some? ==>
              r == Some(uncamelCase(attributes.value.name.value))
    // no attributes, or neither label nor name, give the empty string
    ensures attributes.None? || (attributes.value.labelText.None? && attributes.value.name.None?) ==> r == Some("")
  {
    if attributes.None? then Some("")
    else
      var a := attributes.value;
      if a.labelText.Some? then
        if a.labelText.value == "" then None
        else
          match LocalizedKey(a.labelText.value)
          case Some(localized) => Some(Trim(localized))
          case None => Some(Trim(a.labelText.value))
      else if a.name.Some? then
        match LocalizedKey(a.name.value)
        case Some(localized) => Some(Trim(localized))
        case None => Some(uncamelCase(a.name.value))
      else Some("")
  }

  // ---------------------------------------------------------------------------
  // Read-only widgets
  // ---------------------------------------------------------------------------

  /** Classes buildReadOnlyWidget shows as text. */
  predicate ReadOnlyAsText(k: ClassKind) {
    IsPrimitive(k) || k == StringClass || k == DateClass(true) || k == Wrapper(BooleanType) || IsNumber(k)
  }

  /** When buildReadOnlyWidget expands the property into a nested metawidget. */
  predicate ExpandsReadOnly(a: AndroidAttributes) {
    !a.hidden && !a.masked && !NonEmpty(a.lookup) && NonEmpty(a.typeName)
    && !ReadOnlyAsText(a.typeClass) && !IsCollection(a.typeClass) && !a.dontExpand
  }

  /** A View the user cannot edit. */
  predicate IsInert(w: AndroidWidget) {
    w.TextView? || (w.ListView? && !w.enabled) || w.NestedMetawidget?
  }

  /** buildReadOnlyWidget; None is null (no widget). */
  function BuildReadOnlyWidget(a: AndroidAttributes): (r: Option<AndroidWidget>)
    // hidden properties get no widget, and only they
    ensures r.None? <==> a.hidden
    // nothing built in read-only mode can be edited
    ensures r.Some? ==> IsInert(r.value)
    // masked values are replaced by an invisible text view that still reserves space
    ensures r == Some(TextView(false)) <==> !a.hidden && a.masked
    // collections are shown in a disabled list
    ensures r == Some(ListView(false)) <==>
              !a.hidden && !a.masked && !NonEmpty(a.lookup) && NonEmpty(a.typeName) && IsCollection(a.typeClass)
    // everything that is not simple and may be expanded becomes a nested metawidget
    ensures r == Some(NestedMetawidget) <==> ExpandsReadOnly(a)
  {
    if a.hidden then None
    else if a.masked then Some(TextView(false))
    else if NonEmpty(a.lookup) then Some(TextView(true))
    else if !NonEmpty(a.typeName) then Some(TextView(true))
    // (each class test below fails for an unresolved class)
    else if IsPrimitive(a.typeClass) then Some(TextView(true))
    else if a.typeClass == StringClass then Some(TextView(true))
    else if a.typeClass == DateClass(true) then Some(TextView(true))
    else if a.typeClass == Wrapper(BooleanType) then Some(TextView(true))
    else if IsNumber(a.typeClass) then Some(TextView(true))
    else if IsCollection(a.typeClass) then Some(ListView(false))
    else if a.dontExpand then Some(TextView(true))
    else Some(NestedMetawidget)
  }

  // ---------------------------------------------------------------------------
  // Active widgets
  // ---------------------------------------------------------------------------

  /**
   * A lookup list as handed to the Spinner: empty stays empty, otherwise a
   * leading null (no selection) comes before the parsed items.
   */
  function PrependNull(items: seq<string>): (r: seq<Option<string>>)
    ensures items == [] ==> r == []
    ensures items != [] ==> |r| == |items| + 1 && r[0] == None
    ensures forall k :: 0 <= k < |items| && items != [] ==> r[k + 1] == Some(items[k])
  {
    if items == [] then [] else [None] + seq(|items|, k requires 0 <= k < |items| => Some(items[k]))
  }

  /** When buildActiveWidget builds a digits-only EditText. */
  predicate DigitsOnly(a: AndroidAttributes) {
    NonEmpty(a.typeName)
    && ((IsPrimitive(a.typeClass) && IsIntegral(a.typeClass.primitive))
        || (IsIntegralWrapper(a.typeClass) && !NonEmpty(a.lookup)))
  }

  /** Resolved classes buildActiveWidget has a case for, after primitives and lookups. */
  predicate ActiveHasCase(k: ClassKind) {
    k == StringClass || k == DateClass(true) || k == Wrapper(BooleanType) || IsNumber(k) || IsCollection(k)
  }

  /**
   * When buildActiveWidget falls through every case: a typed property whose
   * class is unresolved, or resolved to a non-primitive class with no lookup
   * and none of the simple cases.
   */
  predicate FallsThroughActive(a: AndroidAttributes) {
    !a.hidden && NonEmpty(a.typeName) && !IsPrimitive(a.typeClass)
    && (a.typeClass == Unknown || (!NonEmpty(a.lookup) && !ActiveHasCase(a.typeClass)))
  }

  /** buildActiveWidget; None is null (no widget). `fromString` is CollectionUtils.fromString. */
  function BuildActiveWidget(a: AndroidAttributes, fromString: string -> seq<string>): (r: Option<AndroidWidget>)
    // hidden properties get no widget, and only they
    ensures r.None? <==> a.hidden
    // a check box exactly for primitive booleans
    ensures r == Some(CheckBox) <==> !a.hidden && NonEmpty(a.typeName) && a.typeClass == Primitive(BooleanType)
    // digits-only input exactly for integral primitives and integral wrappers without a lookup
    ensures (r.Some? && r.value.EditText? && r.value.inputMethod == DigitsInput) <==> !a.hidden && DigitsOnly(a)
    // a lookup gives a spinner whose lists start with null when they are not empty
    ensures r.Some? && r.value.Spinner? ==>
              NonEmpty(a.lookup) && r.value.values == PrependNull(fromString(a.lookup.value))
              && (r.value.labels.Some? <==> NonEmpty(a.lookupLabels))
              && (r.value.labels.Some? ==> r.value.labels.value == PrependNull(fromString(a.lookupLabels.value)))
    // Boolean objects are tri-state: unset, true or false
    ensures (r.Some? && r.value.BooleanSpinner?) <==>
              !a.hidden && NonEmpty(a.typeName) && a.typeClass == Wrapper(BooleanType) && !NonEmpty(a.lookup)
    ensures r.Some? && r.value.BooleanSpinner? ==> r.value.choices == LIST_BOOLEAN_VALUES
    // only masked strings are entered as passwords
    ensures r.Some? && r.value.EditText? && r.value.password ==> a.masked && a.typeClass == StringClass
    // only a String's EditText is ever masked, line-limited or length-limited
    ensures r.Some? && r.value.EditText? && !(NonEmpty(a.typeName) && a.typeClass == StringClass) ==>
              r.value.minLines.None? && r.value.maximumLength.None? && !r.value.password
    // without a type, a plain EditText
    ensures !a.hidden && !NonEmpty(a.typeName) ==> r == Some(EditText(DefaultInput, false, None, None))
    // a spinner exactly for a lookup on a resolved class that is not primitive
    ensures (r.Some? && r.value.Spinner?) <==>
              !a.hidden && NonEmpty(a.typeName) && !IsPrimitive(a.typeClass) && a.typeClass != Unknown && NonEmpty(a.lookup)
    // a String without a lookup: masked as a password, three lines when large, length-limited when given
    ensures !a.hidden && NonEmpty(a.typeName) && a.typeClass == StringClass && !NonEmpty(a.lookup) ==>
              r.Some? && r.value.EditText? && r.value.inputMethod == DefaultInput
              && r.value.password == a.masked
              && (r.value.minLines.Some? <==> a.large) && (a.large ==> r.value.minLines == Some(3))
              && (r.value.maximumLength.Some? <==> NonEmpty(a.maximumLength))
              && (NonEmpty(a.maximumLength) ==> r.value.maximumLength == a.maximumLength)
    // date input exactly for java.util.Date itself without a lookup
    ensures (r.Some? && r.value.EditText? && r.value.inputMethod == DateInput) <==>
              !a.hidden && NonEmpty(a.typeName) && a.typeClass == DateClass(true) && !NonEmpty(a.lookup)
    // an enabled list exactly for collections without a lookup
    ensures (r.Some? && r.value.ListView?) <==>
              !a.hidden && NonEmpty(a.typeName) && IsCollection(a.typeClass) && !NonEmpty(a.lookup)
    ensures r.Some? && r.value.ListView? ==> r.value.enabled
    // past every case: a nested metawidget, or a visible TextView when DONT_EXPAND
    ensures r == Some(NestedMetawidget) <==> FallsThroughActive(a) && !a.dontExpand
    ensures (r.Some? && r.value.TextView?) <==> FallsThroughActive(a) && a.dontExpand
    ensures r.Some? && r.value.TextView? ==> r.value.visible
  {
    if a.hidden then None
    else if !NonEmpty(a.typeName) then Some(EditText(DefaultInput, false, None, None))
    // (each class test below fails for an unresolved class)
    else if IsPrimitive(a.typeClass) then
      if a.typeClass.primitive == BooleanType then Some(CheckBox)
      else if IsIntegral(a.typeClass.primitive) then Some(EditText(DigitsInput, false, None, None))
      else Some(EditText(DefaultInput, false, None, None))
    else if a.typeClass != Unknown && NonEmpty(a.lookup) then
      var labels := if NonEmpty(a.lookupLabels) then Some(PrependNull(fromString(a.lookupLabels.value))) else None;
      Some(Spinner(PrependNull(fromString(a.lookup.value)), labels))
    else if a.typeClass == StringClass then
      Some(EditText(DefaultInput, a.masked, if a.large then Some(3) else None,
                    if NonEmpty(a.maximumLength) then a.maximumLength else None))
    else if a.typeClass == DateClass(true) then Some(EditText(DateInput, false, None, None))
    else if a.typeClass == Wrapper(BooleanType) then Some(BooleanSpinner(LIST_BOOLEAN_VALUES))
    else if IsNumber(a.typeClass) then
      Some(EditText(if IsIntegralWrapper(a.typeClass) then DigitsInput else DefaultInput, false, None, None))
    else if IsCollection(a.typeClass) then Some(ListView(true))
    else if a.dontExpand then Some(TextView(true))
    else Some(NestedMetawidget)
  }

  // ---------------------------------------------------------------------------
  // The two tables side by side
  // ---------------------------------------------------------------------------

  /** A property that expands into a nested metawidget when read-only also does when editable. */
  lemma ReadOnlyExpansionImpliesActiveExpansion(a: AndroidAttributes, fromString: string -> seq<string>)
    requires BuildReadOnlyWidget(a) == Some(NestedMetawidget)
    ensures BuildActiveWidget(a, fromString) == Some(NestedMetawidget)
  {
  }

  /**
   * Lookups are ranked differently by the two tables: read-only mode shows any
   * lookup as text before looking at the type, while editable mode only offers
   * a Spinner once the type resolved to a class that is not primitive.
   */
  lemma UnresolvedLookupIsNotASpinner(a: AndroidAttributes, fromString: string -> seq<string>)
    requires !a.hidden && NonEmpty(a.lookup) && NonEmpty(a.typeName) && a.typeClass == Unknown
    ensures BuildReadOnlyWidget(a) == Some(TextView(!a.masked))
    ensures BuildActiveWidget(a, fromString) == (if a.dontExpand then Some(TextView(true)) else Some(NestedMetawidget))
  {
  }
}
