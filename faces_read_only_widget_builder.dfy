/**
 * ReadOnlyWidgetBuilder of the Java Server Faces front end: the ordered chain
 * of tests that turns a property's (or action's) attributes into a read-only
 * UIComponent, or declines (returns null) so that a later WidgetBuilder or a
 * nested UIMetawidget handles it.
 */
module FacesReadOnlyWidgetBuilder {
  import opened JavaLang
  import opened ClassKinds

  /** What the element is; the builder only asks whether it is ACTION. */
  datatype Element = Entity | Property | Action

  /**
   * The attribute map, reduced to what buildWidget reads:
   *  - readOnly is WidgetBuilderUtils.isReadOnly(attributes);
   *  - hidden, masked and dontExpand are TRUE.equals(attributes.get(...));
   *  - the Option fields are attributes.get(...) (None for null);
   *  - actualClass is WidgetBuilderUtils.getActualClassOrType(attributes, String.class).
   */
  datatype FacesAttributes = FacesAttributes(
    readOnly: bool,
    hidden: bool,
    masked: bool,
    facesComponent: Option<string>,
    lookup: Option<string>,
    lookupLabels: Option<string>,
    facesLookup: Option<string>,
    actualClass: ClassKind,
    dontExpand: bool)

  /** The components the builder creates. */
  datatype FacesWidget =
    | Stub(children: seq<FacesWidget>)                              // UIStub
    | OutputText                                                    // HtmlOutputText
    | CommandButton(disabled: bool, value: Option<string>)          // HtmlCommandButton
    | LookupOutputText(values: seq<string>, labels: seq<string>)    // HtmlLookupOutputText

  /** Not null and not "". */
  predicate NonEmpty(o: Option<string>) {
    o.Some? && o.value != ""
  }

  /** Classes whose value is shown as plain text. */
  predicate ShownAsText(k: ClassKind) {
    IsPrimitive(k) || IsPrimitiveWrapper(k) || IsDate(k) || k == StringClass || k == OtherCollection
  }

  /** Classes left to HtmlWidgetBuilder, which renders them as a data table. */
  predicate LeftToTableBuilder(k: ClassKind) {
    k == ListClass || k == DataModelClass || k == ArrayClass
  }

  /**
   * When the builder declines, stated independently of the if-chain: a
   * property that is not read-only; an action with a custom FACES_COMPONENT;
   * or a property without lookups whose class is either left to the table
   * builder or is not shown as text and may be expanded into a nested
   * Metawidget. Hidden and masked properties are never declined.
   */
  predicate Declines(element: Element, a: FacesAttributes, simpleLayout: bool) {
    !a.readOnly
    || (!a.hidden && !a.masked
        && if element == Action then a.facesComponent.Some?
           else !NonEmpty(a.lookup) && !NonEmpty(a.facesLookup)
                && (LeftToTableBuilder(a.actualClass)
                    || (!ShownAsText(a.actualClass) && !a.dontExpand && !simpleLayout)))
  }

  /**
   * ReadOnlyWidgetBuilder.buildWidget. `labelString` is metawidget.getLabelString(attributes),
   * `simpleLayout` is whether the metawidget's layout is a SimpleLayout and
   * `fromString` is CollectionUtils.fromString.
   */
  function BuildWidget(element: Element, a: FacesAttributes, labelString: Option<string>,
                       simpleLayout: bool, fromString: string -> seq<string>): (r: Option<FacesWidget>)
    // the builder declines exactly in the cases Declines lists
    ensures r.None? <==> Declines(element, a, simpleLayout)
    // hidden takes precedence over everything and gives a bare stub
    ensures r == Some(Stub([])) <==> a.readOnly && a.hidden
    // masked gives a stub holding exactly one nested stub, so that a label is still rendered
    ensures r == Some(Stub([Stub([])])) <==> a.readOnly && !a.hidden && a.masked
    // an action becomes a disabled button showing the label, unless it has its own component
    ensures (r.Some? && r.value.CommandButton?) <==>
              a.readOnly && !a.hidden && !a.masked && element == Action && a.facesComponent.None?
    ensures r.Some? && r.value.CommandButton? ==> r.value == CommandButton(true, labelString)
    // a lookup with labels becomes a lookup output carrying the parsed values and labels
    ensures (r.Some? && r.value.LookupOutputText?) <==>
              a.readOnly && !a.hidden && !a.masked && element != Action && NonEmpty(a.lookup)
              && a.lookupLabels.Some? && fromString(a.lookupLabels.value) != []
    ensures r.Some? && r.value.LookupOutputText? ==>
              r.value.values == fromString(a.lookup.value) && r.value.labels == fromString(a.lookupLabels.value)
              && r.value.labels != []
    // every other component the builder returns is plain output text
    ensures r == Some(OutputText) <==>
              !Declines(element, a, simpleLayout) && !a.hidden && !a.masked && element != Action
              && !(NonEmpty(a.lookup) && a.lookupLabels.Some? && fromString(a.lookupLabels.value) != [])
    // in particular: a lookup whose labels are absent or parse to nothing, ...
    ensures (a.readOnly && !a.hidden && !a.masked && element != Action && NonEmpty(a.lookup)
             && (a.lookupLabels.None? || fromString(a.lookupLabels.value) == [])) ==> r == Some(OutputText)
    // ... a faces lookup, or a class shown as text, ...
    ensures (a.readOnly && !a.hidden && !a.masked && element != Action && !NonEmpty(a.lookup)
             && (NonEmpty(a.facesLookup) || ShownAsText(a.actualClass))) ==> r == Some(OutputText)
    // ... and any class not left to the table builder when it may not be expanded
    ensures (a.readOnly && !a.hidden && !a.masked && element != Action && !NonEmpty(a.lookup)
             && !LeftToTableBuilder(a.actualClass) && (a.dontExpand || simpleLayout)) ==> r == Some(OutputText)
  {
    if !a.readOnly then None
    else if a.hidden then Some(Stub([]))
    else if a.masked then Some(Stub([Stub([])]))
    else if element == Action then
      if a.facesComponent.Some? then None else Some(CommandButton(true, labelString))
    else if NonEmpty(a.lookup) then
      if a.lookupLabels.None? then Some(OutputText)
      else
        var labels := fromString(a.lookupLabels.value);
        if labels == [] then Some(OutputText)
        else Some(LookupOutputText(fromString(a.lookup.value), labels))
    else if NonEmpty(a.facesLookup) then Some(OutputText)
    // (each class test below fails for an unresolved class)
    else if IsPrimitive(a.actualClass) then Some(OutputText)
    else if IsPrimitiveWrapper(a.actualClass) then Some(OutputText)
    else if IsDate(a.actualClass) then Some(OutputText)
    else if a.actualClass == StringClass then Some(OutputText)
    else if LeftToTableBuilder(a.actualClass) then None
    else if IsCollection(a.actualClass) then Some(OutputText)
    else if a.dontExpand || simpleLayout then Some(OutputText)
    else None
  }

  /**
   * Once a non-empty lookup is present, the class, DONT_EXPAND, the faces
   * lookup and the layout no longer matter: lookups take precedence over the
   * type-based rules.
   */
  lemma LookupTakesPrecedenceOverClass(element: Element, a: FacesAttributes, b: FacesAttributes,
                                       labelString: Option<string>, simple1: bool, simple2: bool,
                                       fromString: string -> seq<string>)
    requires a.readOnly && !a.hidden && !a.masked && element != Action && NonEmpty(a.lookup)
    requires b == a.(actualClass := b.actualClass, dontExpand := b.dontExpand, facesLookup := b.facesLookup)
    ensures BuildWidget(element, a, labelString, simple1, fromString) == BuildWidget(element, b, labelString, simple2, fromString)
  {
  }
}
