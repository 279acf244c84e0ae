/**
 * What HtmlTableLayoutRenderer writes, as pure functions of the layout state
 * and the child being laid out. The renderer arranges the children of a
 * UIMetawidget in an HTML table: every child gets a label cell (th), a
 * component cell (td) and a 'required' cell (td), and `columns` such triples
 * share a row. The methods in module HtmlTableLayout write the same output
 * step by step and are proved to agree with these functions.
 */
module HtmlTableSpec {
  import opened JavaLang

  const TABLE_PREFIX: string := "table-"
  const ROW_SUFFIX: string := "-row"
  const LABEL_CELL_SUFFIX: string := "-label-cell"
  const COMPONENT_CELL_SUFFIX: string := "-cell"
  const JUST_COMPONENT_AND_REQUIRED: int := 2
  const LABEL_AND_COMPONENT_AND_REQUIRED: int := 3

  // ---------------------------------------------------------------------------
  // What the ResponseWriter receives
  // ---------------------------------------------------------------------------

  datatype Event =
    | StartElement(name: string)
    | EndElement(name: string)
    | Attribute(name: string, value: string)
    | Text(text: string)                  // ResponseWriter.write
    | Render(component: nat)              // a component rendering itself
    | StyleAndClass(prefix: string)       // HtmlLayoutRenderer.writeStyleAndClass
    | LabelText(component: nat)           // HtmlLayoutRenderer.layoutLabel
    | SectionHeading(section: string)     // the output text naming a section

  // ---------------------------------------------------------------------------
  // The metawidget and its children
  // ---------------------------------------------------------------------------

  /** The metadata attributes a child carries (its COMPONENT_ATTRIBUTE_METADATA map). */
  datatype Metadata = Metadata(section: Option<string>, large: bool, required: bool, readOnly: bool)

  /** The Java class of a child component, as far as the renderer tests it. */
  datatype ComponentKind =
    | StubComponent(childrenRendered: seq<bool>)     // UIStub, with isRendered of each of its children
    | ParameterComponent                             // UIParameter
    | HiddenInputComponent                           // HtmlInputHidden
    | InputComponent                                 // any other UIInput
    | MetawidgetComponent(rendererType: Option<string>) // a nested UIMetawidget
    | DataComponent                                  // UIData
    | OtherComponent

  /**
   * A child component. `labelString` is what the parent metawidget's
   * getLabelString returns for the child's metadata (None for null) and
   * `cssId` is getCssId (None when the child has no value binding).
   */
  datatype Child = Child(id: nat, kind: ComponentKind, rendered: bool, metadata: Option<Metadata>,
                         labelString: Option<string>, cssId: Option<string>)

  /** The f:param values the renderer looks up; `columns` is already parsed. */
  datatype Parameters = Parameters(
    labelStyle: Option<string>,
    componentStyle: Option<string>,
    requiredStyle: Option<string>,
    sectionStyle: Option<string>,
    sectionStyleClass: Option<string>,
    columnClasses: Option<string>,
    rowClasses: Option<string>,
    columns: Option<int>)

  /** The UIMetawidget being laid out; `header` and `footer` are its facets. */
  datatype Metawidget = Metawidget(clientId: string, readOnly: bool, children: seq<Child>,
                                   parameters: Parameters, header: Option<nat>, footer: Option<nat>)

  /** The style settings of a State, fixed once encodeBegin has read them. */
  datatype Styles = Styles(
    labelStyle: Option<string>,
    componentStyle: Option<string>,
    requiredStyle: Option<string>,
    sectionStyle: Option<string>,
    sectionStyleClass: Option<string>,
    columnClasses: Option<seq<string>>,
    rowClasses: Option<seq<string>>)

  /** The renderer's per-metawidget State. */
  datatype TableState = TableState(currentColumn: int, columns: int, currentRow: nat,
                                   currentSection: Option<string>, styles: Styles)

  /** A fresh State: one column, nothing set. */
  const NO_STYLES: Styles := Styles(None, None, None, None, None, None, None)
  const INITIAL_STATE: TableState := TableState(0, 1, 0, None, NO_STYLES)

  /**
   * The outcome of one step: the new state, what was written, and whether the
   * step ended in an exception (what was written before it stays written).
   */
  datatype Written = Written(state: TableState, events: seq<Event>, thrown: bool)

  // ---------------------------------------------------------------------------
  // Classifying children
  // ---------------------------------------------------------------------------

  /** encodeChildren lays out a child only if this holds. */
  predicate Visible(c: Child) {
    !(c.kind.StubComponent? && true !in c.kind.childrenRendered)
    && !c.kind.ParameterComponent? && !c.kind.HiddenInputComponent? && c.rendered
  }

  /** A nested metawidget that is itself laid out as a table. */
  predicate IsNestedTable(c: Child) {
    c.kind.MetawidgetComponent? && c.kind.rendererType == Some("table")
  }

  /** Metawidgets, tables and large components span all columns. */
  predicate SpansAllColumns(c: Child) {
    c.kind.MetawidgetComponent? || c.kind.DataComponent? || (c.metadata.Some? && c.metadata.value.large)
  }

  /** Nested table metawidgets have their own required column; children without metadata get none. */
  predicate HasRequiredCell(c: Child) {
    !IsNestedTable(c) && c.metadata.Some?
  }

  function Count(b: bool): int {
    if b then 1 else 0
  }

  /** The colspan header, footer and section cells get: Math.max(2, columns * 3). */
  function FullWidthColspan(columns: int): (r: nat)
    ensures r >= JUST_COMPONENT_AND_REQUIRED && r >= columns * LABEL_AND_COMPONENT_AND_REQUIRED
    ensures r == JUST_COMPONENT_AND_REQUIRED || r == columns * LABEL_AND_COMPONENT_AND_REQUIRED
  {
    if columns * LABEL_AND_COMPONENT_AND_REQUIRED > JUST_COMPONENT_AND_REQUIRED
    then columns * LABEL_AND_COMPONENT_AND_REQUIRED
    else JUST_COMPONENT_AND_REQUIRED
  }

  /**
   * The colspan of a child's component cell. A spanning child fills its
   * whole row together with its label and required cells (one cell short
   * only when it has neither metadata nor a table of its own); any other
   * child takes three cells at most.
   */
  function ComponentColspan(c: Child, columns: int): (r: int)
    ensures !SpansAllColumns(c) ==> r == (if c.labelString.Some? then 1 else 2)
    ensures !SpansAllColumns(c) ==> Count(c.labelString.Some?) + r + Count(HasRequiredCell(c)) <= 3
    ensures SpansAllColumns(c) ==>
              Count(c.labelString.Some?) + r + Count(HasRequiredCell(c))
              == columns * LABEL_AND_COMPONENT_AND_REQUIRED - Count(c.metadata.None? && !IsNestedTable(c))
  {
    if SpansAllColumns(c) then
      columns * LABEL_AND_COMPONENT_AND_REQUIRED - 2 + Count(c.labelString.None?) + Count(IsNestedTable(c))
    else if c.labelString.None? then 2
    else 1
  }

  // ---------------------------------------------------------------------------
  // Attributes
  // ---------------------------------------------------------------------------

  /** No event of `es` is the rendering of a component. */
  predicate NoRenders(es: seq<Event>) {
    forall k :: 0 <= k < |es| ==> !es[k].Render?
  }

  lemma NoRendersAppend(a: seq<Event>, b: seq<Event>)
    ensures NoRenders(a) && NoRenders(b) ==> NoRenders(a + b)
  {
    if NoRenders(a) && NoRenders(b) {
      forall k | 0 <= k < |a + b| ensures !(a + b)[k].Render? {
        if k < |a| { assert (a + b)[k] == a[k]; } else { assert (a + b)[k] == b[k - |a|]; }
      }
    }
  }

  /** End tags that close an open row (an HTML row also ends where its table section ends). */
  predicate EndsRow(name: string) {
    name == "tr" || name == "thead" || name == "tbody" || name == "tfoot" || name == "table"
  }

  /** The events the table scan below ignores. */
  predicate Neutral(e: Event) {
    match e
    case StartElement(name) => name != "tr" && name != "td" && name != "th"
    case EndElement(name) => !EndsRow(name)
    case Attribute(name, _) => name != "colspan"
    case _ => true
  }

  predicate AllNeutral(es: seq<Event>) {
    forall k :: 0 <= k < |es| ==> Neutral(es[k])
  }

  /** An id attribute built from the child's CSS id, if it has one. */
  function IdAttribute(cssId: Option<string>, suffix: string): (r: seq<Event>)
    ensures AllNeutral(r) && NoRenders(r)
    ensures cssId.None? <==> r == []
  {
    if cssId.Some? then [Attribute("id", TABLE_PREFIX + cssId.value + suffix)] else []
  }

  function StyleAttribute(style: Option<string>): (r: seq<Event>)
    ensures AllNeutral(r) && NoRenders(r)
    ensures style.None? <==> r == []
  {
    if style.Some? then [Attribute("style", style.value)] else []
  }

  /**
   * writeColumnStyleClass: the class of the label (0), component (1) or
   * required (2) cell. Column classes do not repeat: a column beyond the list,
   * or an empty entry, gets no class attribute.
   */
  function ColumnStyleClass(columnClasses: Option<seq<string>>, index: nat): (r: seq<Event>)
    ensures AllNeutral(r) && NoRenders(r)
    ensures columnClasses.None? || index >= |columnClasses.value| ==> r == []
    ensures r != [] <==> columnClasses.Some? && index < |columnClasses.value| && columnClasses.value[index] != ""
    ensures r != [] ==> r == [Attribute("class", Trim(columnClasses.value[index]))]
  {
    if columnClasses.None? || |columnClasses.value| <= index then []
    else if columnClasses.value[index] == "" then []
    else [Attribute("class", Trim(columnClasses.value[index]))]
  }

  /**
   * writeRowStyleClass: the class of the row with the given index; the row
   * classes repeat. None is the ArithmeticException `index % 0` raises when
   * the list is empty.
   */
  function RowStyleClass(rowClasses: Option<seq<string>>, index: nat): (r: Option<seq<Event>>)
    ensures r.None? <==> rowClasses == Some([])
    ensures rowClasses.None? ==> r == Some([])
    ensures r.Some? ==> AllNeutral(r.value) && NoRenders(r.value)
    ensures rowClasses.Some? && rowClasses.value != [] ==>
              (r.value != [] <==> rowClasses.value[Remainder(index, |rowClasses.value|)] != "")
    ensures r.Some? && r.value != [] ==>
              rowClasses.Some? && r.value == [Attribute("class", Trim(rowClasses.value[Remainder(index, |rowClasses.value|)]))]
  {
    if rowClasses.None? then Some([])
    else if rowClasses.value == [] then None
    else
      var rowClass := rowClasses.value[Remainder(index, |rowClasses.value|)];
      if rowClass == "" then Some([]) else Some([Attribute("class", Trim(rowClass))])
  }

  /**
   * The remainder of `index` divided by `n`: Java's `index % n`, which is the
   * same as Dafny's for the non-negative operands it is applied to here
   * (RemainderIsModulo).
   */
  function Remainder(index: nat, n: nat): (r: nat)
    requires n > 0
    ensures r < n
    decreases index
  {
    if index < n then index else Remainder(index - n, n)
  }

  lemma {:induction false} RemainderIsModulo(index: nat, n: nat)
    requires n > 0
    ensures Remainder(index, n) == index % n
    decreases index
  {
    if index < n {
      DivisionIsUnique(index, n, 0, index);
    } else {
      RemainderIsModulo(index - n, n);
      DivisionIsUnique(index, n, (index - n) / n + 1, (index - n) % n);
    }
  }

  /** The quotient and remainder of a division are the only ones. */
  lemma DivisionIsUnique(x: int, n: int, q: int, r: int)
    requires n > 0 && 0 <= r < n && x == q * n + r
    ensures x / n == q && x % n == r
  {
    var q', r' := x / n, x % n;
    assert (q - q') * n == r' - r;
    if q > q' {
      assert (q - q') * n >= n by { ProductAtLeast(q - q', n); }
    } else if q < q' {
      assert (q' - q) * n >= n by { ProductAtLeast(q' - q, n); }
    }
  }

  lemma ProductAtLeast(a: int, n: int)
    requires a >= 1 && n > 0
    ensures a * n >= n
  {
  }

  // ---------------------------------------------------------------------------
  // encodeBegin and encodeEnd
  // ---------------------------------------------------------------------------

  /** The hidden inputs, rendered before the table starts. */
  function HiddenChildren(children: seq<Child>): (r: seq<Event>)
    ensures AllNeutral(r)
    ensures |r| <= |children|
    decreases |children|
  {
    if children == [] then []
    else
      var c := children[|children| - 1];
      HiddenChildren(children[..|children| - 1]) + (if c.kind.HiddenInputComponent? then [Render(c.id)] else [])
  }

  /** A header or footer: one row whose single cell spans the whole table. */
  function FacetRow(group: string, prefix: string, facet: nat, columns: int): (r: seq<Event>)
  {
    [StartElement(group), StartElement("tr"), StartElement("td"),
     Attribute("colspan", NatToString(FullWidthColspan(columns))),
     StyleAndClass(prefix), Render(facet),
     EndElement("td"), EndElement("tr"), EndElement(group)]
  }

  /** The state encodeBegin leaves: a fresh State with the parameters read in. */
  function BeginState(p: Parameters): (s: TableState)
    ensures s.currentColumn == 0 && s.currentRow == 0 && s.currentSection.None?
    ensures s.columns == (if p.columns.Some? then p.columns.value else 1)
    ensures s.styles.labelStyle == p.labelStyle && s.styles.componentStyle == p.componentStyle
    ensures s.styles.requiredStyle == p.requiredStyle
    ensures s.styles.sectionStyle == p.sectionStyle && s.styles.sectionStyleClass == p.sectionStyleClass
    ensures s.styles.rowClasses.Some? <==> p.rowClasses.Some?
    ensures p.rowClasses.Some? ==> s.styles.rowClasses == Some(SplitComma(p.rowClasses.value))
    ensures s.styles.columnClasses.Some? <==> p.columnClasses.Some?
    ensures p.columnClasses.Some? ==> s.styles.columnClasses == Some(SplitComma(p.columnClasses.value))
  {
    TableState(0, if p.columns.Some? then p.columns.value else 1, 0, None,
               Styles(p.labelStyle, p.componentStyle, p.requiredStyle, p.sectionStyle, p.sectionStyleClass,
                      if p.columnClasses.Some? then Some(SplitComma(p.columnClasses.value)) else None,
                      if p.rowClasses.Some? then Some(SplitComma(p.rowClasses.value)) else None))
  }

  /**
   * encodeBegin: the hidden children, the start of the table, the header and
   * footer rows and the start of the body. A negative column count raises a
   * LayoutException right after the table's style is written.
   */
  function Begin(m: Metawidget): (w: Written)
    ensures w.state == BeginState(m.parameters)
    ensures w.thrown <==> m.parameters.columns.Some? && m.parameters.columns.value < 0
  {
    var s := BeginState(m.parameters);
    if s.columns < 0 then Written(s, TableStart(m), true)
    else Written(s, TableStart(m) + FacetRows(m, s.columns), false)
  }

  /** The hidden children and the start of the table, with its id and style. */
  function TableStart(m: Metawidget): seq<Event> {
    HiddenChildren(m.children) + [StartElement("table"), Attribute("id", m.clientId), StyleAndClass("table")]
  }

  /** The header and footer rows and the start of the body. */
  function FacetRows(m: Metawidget, columns: int): seq<Event> {
    (if m.header.Some? then FacetRow("thead", "header", m.header.value, columns) else [])
    + (if m.footer.Some? then FacetRow("tfoot", "footer", m.footer.value, columns) else [])
    + [StartElement("tbody")]
  }

  /** encodeEnd. */
  const END_EVENTS: seq<Event> := [EndElement("tbody"), EndElement("table")]

  // ---------------------------------------------------------------------------
  // layoutBeforeChild, stage by stage
  // ---------------------------------------------------------------------------

  /** layoutSection: a row whose one heading cell spans the table; nothing for a blank section. */
  function SectionEvents(styles: Styles, columns: int, section: string): (r: seq<Event>)
    ensures section == "" <==> r == []
    ensures NoRenders(r)
  {
    if section == "" then []
    else
      [StartElement("tr"), StartElement("th"), Attribute("colspan", NatToString(FullWidthColspan(columns)))]
      + StyleAttribute(styles.sectionStyle)
      + (if styles.sectionStyleClass.Some? then [Attribute("class", styles.sectionStyleClass.value)] else [])
      + [SectionHeading(section), EndElement("th"), EndElement("tr")]
  }

  /** Whether the child opens a section other than the current one. */
  predicate ChangesSection(s: TableState, c: Child) {
    c.metadata.Some? && c.metadata.value.section.Some? && c.metadata.value.section != s.currentSection
  }

  /** A new section gets its heading row and restarts the column count. */
  function SectionStage(s: TableState, c: Child): (w: Written)
    ensures !w.thrown && w.state.styles == s.styles && w.state.columns == s.columns
    ensures w.state.currentRow == s.currentRow
    ensures ChangesSection(s, c) ==> w.state.currentColumn == 1 && w.state.currentSection == c.metadata.value.section
    ensures !ChangesSection(s, c) ==> w.state == s && w.events == []
    ensures NoRenders(w.events)
  {
    if ChangesSection(s, c) then
      var section := c.metadata.value.section.value;
      Written(s.(currentSection := Some(section), currentColumn := 1), SectionEvents(s.styles, s.columns, section), false)
    else Written(s, [], false)
  }

  /**
   * Whether the child must start on a fresh row: the component spans all
   * columns and the current row already holds other children.
   */
  predicate BreaksRow(s: TableState, c: Child) {
    SpansAllColumns(c) && s.currentColumn != 1
  }

  /** The open row ends before a child that spans all columns. */
  function WholeRowStage(s: TableState, c: Child): (w: Written)
    ensures !w.thrown && w.state.styles == s.styles && w.state.columns == s.columns
    ensures w.state.currentRow == s.currentRow
    ensures BreaksRow(s, c) ==> w.state == s.(currentColumn := 1) && w.events == [EndElement("tr")]
    ensures !BreaksRow(s, c) ==> w.state == s && w.events == []
  {
    if BreaksRow(s, c) then Written(s.(currentColumn := 1), [EndElement("tr")], false)
    else Written(s, [], false)
  }

  /**
   * The whole-row test as written: only a LARGE child in its metadata (the
   * other half of the test asks whether the metawidget itself is a UIData,
   * which a UIMetawidget never is).
   */
  function WholeRowStageAsWritten(s: TableState, c: Child): (w: Written)
    ensures w.state.styles == s.styles && w.state.columns == s.columns && w.state.currentRow == s.currentRow
    ensures w.events != [] <==> c.metadata.Some? && c.metadata.value.large && s.currentColumn != 1
  {
    if c.metadata.Some? && c.metadata.value.large && s.currentColumn != 1
    then Written(s.(currentColumn := 1), [EndElement("tr")], false)
    else Written(s, [], false)
  }

  predicate StartsRow(s: TableState) {
    s.currentColumn == 1 || s.currentColumn > s.columns
  }

  /** A new row, with its id and its class, when the column count restarts or overflows. */
  function NewRowStage(s: TableState, c: Child): (w: Written)
    ensures w.state.styles == s.styles && w.state.columns == s.columns && w.state.currentSection == s.currentSection
    ensures w.thrown <==> StartsRow(s) && s.styles.rowClasses == Some([])
    ensures StartsRow(s) && !w.thrown ==> w.state == s.(currentColumn := 1, currentRow := s.currentRow + 1)
    ensures !StartsRow(s) ==> w.state == s && w.events == []
    ensures NoRenders(w.events)
  {
    if StartsRow(s) then
      var opening := [StartElement("tr")] + IdAttribute(c.cssId, ROW_SUFFIX);
      match RowStyleClass(s.styles.rowClasses, s.currentRow)
      case None => Written(s.(currentColumn := 1), opening, true)
      case Some(rowClass) =>
        Written(s.(currentColumn := 1, currentRow := s.currentRow + 1), opening + rowClass, false)
    else Written(s, [], false)
  }

  /** layoutLabel: the label cell, unless the label is null. */
  function LabelEvents(styles: Styles, c: Child): (r: seq<Event>)
    ensures c.labelString.None? <==> r == []
    ensures NoRenders(r)
  {
    if c.labelString.None? then []
    else
      var id := [StartElement("th")] + IdAttribute(c.cssId, LABEL_CELL_SUFFIX);
      var style := id + StyleAttribute(styles.labelStyle);
      var attributes := style + ColumnStyleClass(styles.columnClasses, 0);
      NoRendersAppend([StartElement("th")], IdAttribute(c.cssId, LABEL_CELL_SUFFIX));
      NoRendersAppend(id, StyleAttribute(styles.labelStyle));
      NoRendersAppend(style, ColumnStyleClass(styles.columnClasses, 0));
      NoRendersAppend(attributes, [LabelText(c.id), EndElement("th")]);
      attributes + [LabelText(c.id), EndElement("th")]
  }

  /**
   * A zero-column layout puts the component on a row of its own below its
   * label. That row gets the class of the label's row: the row index is the
   * one before the increment made when the label's row was started.
   */
  function ExtraRowStage(s: TableState, c: Child): (w: Written)
    requires c.labelString.Some? && s.columns == 0 ==> s.currentRow >= 1
    ensures w.state == s
    ensures w.thrown <==> c.labelString.Some? && s.columns == 0 && s.styles.rowClasses == Some([])
    ensures NoRenders(w.events)
  {
    if c.labelString.Some? && s.columns == 0 then
      var opening := [EndElement("tr"), StartElement("tr")] + IdAttribute(c.cssId, ROW_SUFFIX + "2");
      match RowStyleClass(s.styles.rowClasses, s.currentRow - 1)
      case None => Written(s, opening, true)
      case Some(rowClass) => Written(s, opening + rowClass, false)
    else Written(s, [], false)
  }

  /** The extra row as written: it takes the class of the row after the label's row. */
  function ExtraRowStageAsWritten(s: TableState, c: Child): (w: Written)
    ensures w.state == s
    ensures w.thrown <==> c.labelString.Some? && s.columns == 0 && s.styles.rowClasses == Some([])
    ensures NoRenders(w.events)
  {
    if c.labelString.Some? && s.columns == 0 then
      var opening := [EndElement("tr"), StartElement("tr")] + IdAttribute(c.cssId, ROW_SUFFIX + "2");
      match RowStyleClass(s.styles.rowClasses, s.currentRow)
      case None => Written(s, opening, true)
      case Some(rowClass) => Written(s, opening + rowClass, false)
    else Written(s, [], false)
  }

  /** The start of the component cell; a spanning child claims the rest of the row. */
  function ComponentCellStage(s: TableState, c: Child): (w: Written)
    ensures !w.thrown
    ensures w.state == (if SpansAllColumns(c) then s.(currentColumn := s.columns) else s)
    ensures NoRenders(w.events)
  {
    var id := IdAttribute(c.cssId, COMPONENT_CELL_SUFFIX);
    var style := StyleAttribute(s.styles.componentStyle);
    var styleClass := ColumnStyleClass(s.styles.columnClasses, 1);
    var colspan := ColspanAttribute(ComponentColspan(c, s.columns));
    CellStartRendersNothing(id, style, styleClass, colspan);
    Written(if SpansAllColumns(c) then s.(currentColumn := s.columns) else s,
            [StartElement("td")] + id + style + styleClass + colspan, false)
  }

  lemma CellStartRendersNothing(id: seq<Event>, style: seq<Event>, styleClass: seq<Event>, colspan: seq<Event>)
    requires NoRenders(id) && NoRenders(style) && NoRenders(styleClass) && NoRenders(colspan)
    ensures NoRenders([StartElement("td")] + id + style + styleClass + colspan)
  {
    NoRendersAppend([StartElement("td")], id);
    NoRendersAppend([StartElement("td")] + id, style);
    NoRendersAppend([StartElement("td")] + id + style, styleClass);
    NoRendersAppend([StartElement("td")] + id + style + styleClass, colspan);
  }

  /** A colspan attribute, written only for a cell wider than one column. */
  function ColspanAttribute(colspan: int): (r: seq<Event>)
    ensures r != [] <==> colspan > 1
    ensures r != [] ==> r == [Attribute("colspan", NatToString(colspan))]
    ensures NoRenders(r)
  {
    if colspan > 1 then [Attribute("colspan", NatToString(colspan))] else []
  }

  /**
   * layoutBeforeChild: the section heading, the end of a row that cannot take
   * a spanning child, the start of a row, the label cell, the extra row of a
   * zero-column layout and the start of the component cell. `s` is the state
   * after encodeChildren has counted the child's column.
   */
  function BeforeChild(s: TableState, c: Child): (w: Written)
    requires s.currentColumn >= 1
    ensures w.state.styles == s.styles && w.state.columns == s.columns
    ensures s.currentRow <= w.state.currentRow <= s.currentRow + 1
    ensures s.styles.rowClasses != Some([]) ==> !w.thrown
  {
    var w1 := SectionStage(s, c);
    var w2 := WholeRowStage(w1.state, c);
    var w3 := NewRowStage(w2.state, c);
    if w3.thrown then Written(w3.state, w1.events + w2.events + w3.events, true)
    else
      var labelEvents := LabelEvents(s.styles, c);
      var w5 := ExtraRowStage(w3.state, c);
      if w5.thrown then Written(w5.state, w1.events + w2.events + w3.events + labelEvents + w5.events, true)
      else
        var w6 := ComponentCellStage(w5.state, c);
        Written(w6.state, w1.events + w2.events + w3.events + labelEvents + w5.events + w6.events, false)
  }

  /** layoutBeforeChild as written: both stages that differ from BeforeChild are the as-written ones. */
  function BeforeChildAsWritten(s: TableState, c: Child): (w: Written)
    requires s.currentColumn >= 1
    ensures w.state.styles == s.styles && w.state.columns == s.columns
    ensures s.currentRow <= w.state.currentRow <= s.currentRow + 1
    ensures s.styles.rowClasses != Some([]) ==> !w.thrown
  {
    var w1 := SectionStage(s, c);
    var w2 := WholeRowStageAsWritten(w1.state, c);
    var w3 := NewRowStage(w2.state, c);
    if w3.thrown then Written(w3.state, w1.events + w2.events + w3.events, true)
    else
      var labelEvents := LabelEvents(s.styles, c);
      var w5 := ExtraRowStageAsWritten(w3.state, c);
      if w5.thrown then Written(w5.state, w1.events + w2.events + w3.events + labelEvents + w5.events, true)
      else
        var w6 := ComponentCellStage(w5.state, c);
        Written(w6.state, w1.events + w2.events + w3.events + labelEvents + w5.events + w6.events, false)
  }

  // ---------------------------------------------------------------------------
  // layoutAfterChild and the loop of encodeChildren
  // ---------------------------------------------------------------------------

  /** layoutRequired: an asterisk for a required, editable input, otherwise an empty div. */
  function RequiredEvents(metawidgetReadOnly: bool, c: Child): (r: seq<Event>)
    ensures r == [Text("*")] <==>
              c.metadata.Some? && c.metadata.value.required && !c.metadata.value.readOnly && !metawidgetReadOnly
              && (c.kind.InputComponent? || c.kind.StubComponent?)
    ensures r != [Text("*")] ==> r == [StartElement("div"), EndElement("div")]
    ensures AllNeutral(r) && NoRenders(r)
  {
    if c.metadata.Some? && c.metadata.value.required && !c.metadata.value.readOnly && !metawidgetReadOnly
       && (c.kind.InputComponent? || c.kind.StubComponent?)
    then [Text("*")]
    else [StartElement("div"), EndElement("div")]
  }

  /** The required cell of a child that has one. */
  function RequiredCell(s: TableState, metawidgetReadOnly: bool, c: Child): (r: seq<Event>)
    ensures !HasRequiredCell(c) <==> r == []
    ensures NoRenders(r)
  {
    if HasRequiredCell(c) then
      [StartElement("td")] + StyleAttribute(s.styles.requiredStyle) + ColumnStyleClass(s.styles.columnClasses, 2)
      + RequiredEvents(metawidgetReadOnly, c) + [EndElement("td")]
    else []
  }

  /** layoutAfterChild: the end of the component cell, the required cell, and the end of a full row. */
  function AfterChild(s: TableState, metawidgetReadOnly: bool, c: Child): (w: Written)
    ensures !w.thrown
    ensures w.state == (if s.currentColumn >= s.columns then s.(currentColumn := 0) else s)
    ensures NoRenders(w.events)
  {
    var ending := if s.currentColumn >= s.columns then [EndElement("tr")] else [];
    Written(if s.currentColumn >= s.columns then s.(currentColumn := 0) else s,
            [EndElement("td")] + RequiredCell(s, metawidgetReadOnly, c) + ending, false)
  }

  /** One visible child: count its column, lay out its label, render it and close its cells. */
  function LayoutChild(s: TableState, metawidgetReadOnly: bool, c: Child): (w: Written)
    requires s.currentColumn >= 0
    ensures w.state.styles == s.styles && w.state.columns == s.columns
    ensures s.currentRow <= w.state.currentRow <= s.currentRow + 1
    ensures s.styles.rowClasses != Some([]) ==> !w.thrown
    ensures w.state.currentColumn >= 0
  {
    var before := BeforeChild(s.(currentColumn := s.currentColumn + 1), c);
    if before.thrown then before
    else
      var after := AfterChild(before.state, metawidgetReadOnly, c);
      Written(after.state, before.events + [Render(c.id)] + after.events, false)
  }

  /** The two ways LayoutChild ends: after the exception of layoutBeforeChild, or with the rendered child. */
  lemma LayoutChildParts(s: TableState, metawidgetReadOnly: bool, c: Child)
    requires s.currentColumn >= 0
    ensures var before := BeforeChild(s.(currentColumn := s.currentColumn + 1), c);
            var after := AfterChild(before.state, metawidgetReadOnly, c);
            (before.thrown ==> LayoutChild(s, metawidgetReadOnly, c) == before)
            && (!before.thrown ==>
                  LayoutChild(s, metawidgetReadOnly, c) == Written(after.state, before.events + [Render(c.id)] + after.events, false))
  {
  }

  /** One visible child, laid out as written. */
  function LayoutChildAsWritten(s: TableState, metawidgetReadOnly: bool, c: Child): (w: Written)
    requires s.currentColumn >= 0
    ensures w.state.styles == s.styles && w.state.columns == s.columns
    ensures s.currentRow <= w.state.currentRow <= s.currentRow + 1
    ensures s.styles.rowClasses != Some([]) ==> !w.thrown
    ensures w.state.currentColumn >= 0
  {
    var before := BeforeChildAsWritten(s.(currentColumn := s.currentColumn + 1), c);
    if before.thrown then before
    else
      var after := AfterChild(before.state, metawidgetReadOnly, c);
      Written(after.state, before.events + [Render(c.id)] + after.events, false)
  }

  /** The two ways LayoutChildAsWritten ends, as for LayoutChild. */
  lemma LayoutChildAsWrittenParts(s: TableState, metawidgetReadOnly: bool, c: Child)
    requires s.currentColumn >= 0
    ensures var before := BeforeChildAsWritten(s.(currentColumn := s.currentColumn + 1), c);
            var after := AfterChild(before.state, metawidgetReadOnly, c);
            (before.thrown ==> LayoutChildAsWritten(s, metawidgetReadOnly, c) == before)
            && (!before.thrown ==>
                  LayoutChildAsWritten(s, metawidgetReadOnly, c) == Written(after.state, before.events + [Render(c.id)] + after.events, false))
  {
  }

  /** The children laid out in order, the invisible ones skipped; an exception ends the loop. */
  function LayoutChildren(s: TableState, metawidgetReadOnly: bool, children: seq<Child>): (w: Written)
    requires s.currentColumn >= 0
    ensures w.state.styles == s.styles && w.state.columns == s.columns
    ensures w.state.currentColumn >= 0 && w.state.currentRow >= s.currentRow
    ensures s.styles.rowClasses != Some([]) ==> !w.thrown
    decreases |children|
  {
    if children == [] then Written(s, [], false)
    else
      var w := LayoutChildren(s, metawidgetReadOnly, children[..|children| - 1]);
      var c := children[|children| - 1];
      if w.thrown || !Visible(c) then w
      else
        var next := LayoutChild(w.state, metawidgetReadOnly, c);
        Written(next.state, w.events + next.events, next.thrown)
  }

  /** The loop of encodeChildren as written. */
  function LayoutChildrenAsWritten(s: TableState, metawidgetReadOnly: bool, children: seq<Child>): (w: Written)
    requires s.currentColumn >= 0
    ensures w.state.styles == s.styles && w.state.columns == s.columns
    ensures w.state.currentColumn >= 0 && w.state.currentRow >= s.currentRow
    ensures s.styles.rowClasses != Some([]) ==> !w.thrown
    decreases |children|
  {
    if children == [] then Written(s, [], false)
    else
      var w := LayoutChildrenAsWritten(s, metawidgetReadOnly, children[..|children| - 1]);
      var c := children[|children| - 1];
      if w.thrown || !Visible(c) then w
      else
        var next := LayoutChildAsWritten(w.state, metawidgetReadOnly, c);
        Written(next.state, w.events + next.events, next.thrown)
  }

  /** The state encodeChildren starts the loop from. */
  function ChildrenStart(s: TableState): (r: TableState)
    ensures r.currentColumn == 0 && r.currentRow == 0 && r.currentSection.None?
    ensures r.columns == s.columns && r.styles == s.styles
  {
    s.(currentColumn := 0, currentRow := 0, currentSection := None)
  }
}
