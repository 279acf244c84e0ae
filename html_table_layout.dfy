/**
 * HtmlTableLayoutRenderer as the step-by-step program it is: a State object
 * whose fields the layout methods update, and a ResponseWriter that collects
 * what they write. Each method is proved to leave the State and the output
 * that the functions of module HtmlTableSpec describe.
 */
module HtmlTableLayout {
  import opened JavaLang
  import opened HtmlTableSpec

  /** The JSF ResponseWriter: everything written so far, in order. */
  class ResponseWriter {
    var events: seq<Event>

    constructor ()
      ensures events == []
    {
      events := [];
    }

    method StartElement(name: string)
      modifies this
      ensures events == old(events) + [Event.StartElement(name)]
    {
      events := events + [Event.StartElement(name)];
    }

    method EndElement(name: string)
      modifies this
      ensures events == old(events) + [Event.EndElement(name)]
    {
      events := events + [Event.EndElement(name)];
    }

    method WriteAttribute(name: string, value: string)
      modifies this
      ensures events == old(events) + [Attribute(name, value)]
    {
      events := events + [Attribute(name, value)];
    }

    method Write(text: string)
      modifies this
      ensures events == old(events) + [Text(text)]
    {
      events := events + [Text(text)];
    }

    /** Output produced by code outside the renderer: a component rendering itself, the superclass's label and styles. */
    method Delegate(e: Event)
      requires e.Render? || e.StyleAndClass? || e.LabelText? || e.SectionHeading?
      modifies this
      ensures events == old(events) + [e]
    {
      events := events + [e];
    }
  }

  /** The renderer's State, kept in the metawidget's client properties between encodeBegin and encodeChildren. */
  class State {
    var currentColumn: int
    var columns: int
    var currentRow: nat
    var currentSection: Option<string>
    var labelStyle: Option<string>
    var componentStyle: Option<string>
    var requiredStyle: Option<string>
    var sectionStyle: Option<string>
    var sectionStyleClass: Option<string>
    var columnClasses: Option<seq<string>>
    var rowClasses: Option<seq<string>>

    /** The fields as a value. */
    function Snapshot(): TableState
      reads this
    {
      TableState(currentColumn, columns, currentRow, currentSection,
                 Styles(labelStyle, componentStyle, requiredStyle, sectionStyle, sectionStyleClass,
                        columnClasses, rowClasses))
    }

    constructor ()
      ensures Snapshot() == INITIAL_STATE
    {
      currentColumn, columns, currentRow, currentSection := 0, 1, 0, None;
      labelStyle, componentStyle, requiredStyle, sectionStyle, sectionStyleClass := None, None, None, None, None;
      columnClasses, rowClasses := None, None;
    }
  }

  /** Whether any child of a UIStub is rendered: the stub is laid out only then. */
  method StubHasRenderedChild(childrenRendered: seq<bool>) returns (visibleChildren: bool)
    ensures visibleChildren <==> true in childrenRendered
  {
    visibleChildren := false;
    var i := 0;
    while i < |childrenRendered|
      invariant 0 <= i <= |childrenRendered|
      invariant true !in childrenRendered[..i]
    {
      if childrenRendered[i] {
        visibleChildren := true;
        return;
      }
      i := i + 1;
    }
    assert childrenRendered[..i] == childrenRendered;
  }

  /** The visibility test at the head of encodeChildren's loop. */
  method IsVisible(c: Child) returns (visible: bool)
    ensures visible == Visible(c)
  {
    if c.kind.StubComponent? {
      var visibleChildren := StubHasRenderedChild(c.kind.childrenRendered);
      if !visibleChildren {
        return false;
      }
    }
    visible := !c.kind.ParameterComponent? && !c.kind.HiddenInputComponent? && c.rendered;
  }


  /**
   * An HtmlTableLayoutRenderer at work on one UIMetawidget. `state` is the
   * State stored in that metawidget's client properties (null until getState
   * creates it). The methods that lay out one child take that State and
   * change its fields; those that only read it take the fields they need.
   */
  class TableLayoutRenderer {
    var state: State?

    constructor ()
      ensures state == null
    {
      state := null;
    }

    /** getState: the stored State, created on first use. */
    method GetState() returns (s: State)
      modifies this
      ensures s == state
      ensures old(state) != null ==> s == old(state)
      ensures old(state) == null ==> fresh(s) && s.Snapshot() == INITIAL_STATE
    {
      if state == null {
        state := new State();
      }
      s := state;
    }

    // -------------------------------------------------------------------------
    // encodeBegin, encodeChildren, encodeEnd
    // -------------------------------------------------------------------------

    /** layoutHiddenChildren: every HtmlInputHidden child renders itself before the table. */
    static method LayoutHiddenChildren(children: seq<Child>, writer: ResponseWriter)
      modifies writer
      ensures writer.events == old(writer.events) + HiddenChildren(children)
    {
      var i := 0;
      while i < |children|
        invariant 0 <= i <= |children|
        invariant writer.events == old(writer.events) + HiddenChildren(children[..i])
      {
        var c := children[i];
        assert children[..i + 1][..i] == children[..i];
        if c.kind.HiddenInputComponent? {
          writer.Delegate(Render(c.id));
        }
        i := i + 1;
      }
      assert children[..i] == children;
    }

    /** The hidden children and the start of the table, with its id and style. */
    static method StartTable(m: Metawidget, writer: ResponseWriter)
      modifies writer
      ensures writer.events == old(writer.events) + TableStart(m)
    {
      ghost var before := writer.events;
      LayoutHiddenChildren(m.children, writer);
      ghost var out := HiddenChildren(m.children);
      writer.StartElement("table");
      AppendAssoc(before, out, [Event.StartElement("table")]);
      out := out + [Event.StartElement("table")];
      writer.WriteAttribute("id", m.clientId);
      AppendAssoc(before, out, [Attribute("id", m.clientId)]);
      out := out + [Attribute("id", m.clientId)];
      writer.Delegate(StyleAndClass("table"));
      AppendAssoc(before, out, [StyleAndClass("table")]);
      AppendTriple(HiddenChildren(m.children), Event.StartElement("table"), Attribute("id", m.clientId), StyleAndClass("table"));
    }

    /** The header or footer facet: a single cell spanning the whole table. */
    static method LayoutFacet(group: string, prefix: string, facet: nat, columns: int, writer: ResponseWriter)
      modifies writer
      ensures writer.events == old(writer.events) + FacetRow(group, prefix, facet, columns)
    {
      ghost var before := writer.events;
      writer.StartElement(group);
      writer.StartElement("tr");
      writer.StartElement("td");
      var colspan := if JUST_COMPONENT_AND_REQUIRED < columns * LABEL_AND_COMPONENT_AND_REQUIRED
                     then columns * LABEL_AND_COMPONENT_AND_REQUIRED else JUST_COMPONENT_AND_REQUIRED;
      assert colspan == FullWidthColspan(columns);
      writer.WriteAttribute("colspan", NatToString(colspan));
      writer.Delegate(StyleAndClass(prefix));
      writer.Delegate(Render(facet));
      writer.EndElement("td");
      writer.EndElement("tr");
      writer.EndElement(group);
      assert writer.events == before + FacetRow(group, prefix, facet, columns);
    }

    /** The parameters read into the State; `thrown` is the LayoutException for a negative column count. */
    static method ReadParameters(s: State, p: Parameters) returns (thrown: bool)
      requires s.Snapshot() == INITIAL_STATE
      modifies s
      ensures s.Snapshot() == BeginState(p)
      ensures thrown <==> s.columns < 0
    {
      // A missing style parameter leaves its field null, which is what a fresh State holds.
      s.labelStyle, s.componentStyle, s.requiredStyle := p.labelStyle, p.componentStyle, p.requiredStyle;
      s.sectionStyle, s.sectionStyleClass := p.sectionStyle, p.sectionStyleClass;
      if p.columnClasses.Some? { s.columnClasses := Some(SplitComma(p.columnClasses.value)); }
      if p.rowClasses.Some? { s.rowClasses := Some(SplitComma(p.rowClasses.value)); }
      thrown := false;
      if p.columns.Some? {
        s.columns := p.columns.value;
        if s.columns < 0 {
          thrown := true;
        }
      }
    }

    /** The header and footer rows and the start of the body. */
    static method LayoutFacets(m: Metawidget, columns: int, writer: ResponseWriter)
      modifies writer
      ensures writer.events == old(writer.events) + FacetRows(m, columns)
    {
      ghost var before := writer.events;
      if m.header.Some? {
        LayoutFacet("thead", "header", m.header.value, columns, writer);
      }
      ghost var out := if m.header.Some? then FacetRow("thead", "header", m.header.value, columns) else [];
      if m.footer.Some? {
        LayoutFacet("tfoot", "footer", m.footer.value, columns, writer);
      }
      ghost var footer := if m.footer.Some? then FacetRow("tfoot", "footer", m.footer.value, columns) else [];
      AppendAssoc(before, out, footer);
      out := out + footer;
      writer.StartElement("tbody");
      AppendAssoc(before, out, [Event.StartElement("tbody")]);
    }

    /**
     * encodeBegin: discards any previous State, starts the table and reads
     * the parameters into a fresh State. `thrown` is the LayoutException for a
     * negative column count.
     */
    method EncodeBegin(m: Metawidget, writer: ResponseWriter) returns (thrown: bool)
      modifies this, writer
      ensures state != null && fresh(state)
      ensures state.Snapshot() == Begin(m).state
      ensures writer.events == old(writer.events) + Begin(m).events
      ensures thrown == Begin(m).thrown
    {
      // putClientProperty(null) followed by getState: a fresh State.
      var s := new State();
      state := s;
      thrown := BeginTable(s, m, writer);
    }

    /** The work of encodeBegin on the fresh State `s`. */
    static method BeginTable(s: State, m: Metawidget, writer: ResponseWriter) returns (thrown: bool)
      requires s.Snapshot() == INITIAL_STATE
      modifies s, writer
      ensures s.Snapshot() == Begin(m).state
      ensures writer.events == old(writer.events) + Begin(m).events
      ensures thrown == Begin(m).thrown
    {
      ghost var before := writer.events;
      StartTable(m, writer);
      thrown := ReadParameters(s, m.parameters);
      var columns := s.columns;
      if !thrown {
        LayoutFacets(m, columns, writer);
        AppendAssoc(before, TableStart(m), FacetRows(m, columns));
      }
    }

    /** encodeChildren: restarts the column, row and section count and lays out every visible child. */
    method EncodeChildren(m: Metawidget, writer: ResponseWriter) returns (thrown: bool)
      modifies this, state, writer
      ensures state != null
      ensures old(state) != null ==> state == old(state)
      ensures old(state) == null ==> fresh(state)
      ensures var start := ChildrenStart(if old(state) == null then INITIAL_STATE else old(state.Snapshot()));
              var w := LayoutChildren(start, m.readOnly, m.children);
              state.Snapshot() == w.state && writer.events == old(writer.events) + w.events && thrown == w.thrown
    {
      var s := GetState();
      s.currentColumn, s.currentRow, s.currentSection := 0, 0, None;
      thrown := LayoutChildrenOf(s, m, writer);
    }

    /** The loop of encodeChildren; an exception ends the loop and the method. */
    static method LayoutChildrenOf(s: State, m: Metawidget, writer: ResponseWriter) returns (thrown: bool)
      requires s.currentColumn >= 0
      modifies s, writer
      ensures var w := LayoutChildren(old(s.Snapshot()), m.readOnly, m.children);
              s.Snapshot() == w.state && writer.events == old(writer.events) + w.events && thrown == w.thrown
    {
      ghost var start := s.Snapshot();
      ghost var before := writer.events;
      var children := m.children;
      var i := 0;
      while i < |children|
        invariant 0 <= i <= |children|
        invariant var w := LayoutChildren(start, m.readOnly, children[..i]);
                  !w.thrown && s.Snapshot() == w.state && writer.events == before + w.events
      {
        var c := children[i];
        ghost var done := LayoutChildren(start, m.readOnly, children[..i]);
        var visible := IsVisible(c);
        if visible {
          thrown := EncodeChild(s, m.readOnly, c, writer);
          AppendAssoc(before, done.events, HtmlTableSpec.LayoutChild(done.state, m.readOnly, c).events);
          LayoutChildrenStep(start, m.readOnly, children, i);
          if thrown {
            LayoutChildrenStopsAfterThrow(start, m.readOnly, children, i + 1);
            return;
          }
        } else {
          LayoutChildrenStep(start, m.readOnly, children, i);
        }
        i := i + 1;
      }
      assert children[..i] == children;
      thrown := false;
    }

    /** encodeEnd: closes the body and the table. */
    static method EncodeEnd(writer: ResponseWriter)
      modifies writer
      ensures writer.events == old(writer.events) + END_EVENTS
    {
      writer.EndElement("tbody");
      writer.EndElement("table");
    }

    // -------------------------------------------------------------------------
    // One child
    // -------------------------------------------------------------------------

    /** The loop body for a visible child: count its column, then layoutBeforeChild, layoutChild and layoutAfterChild. */
    static method EncodeChild(s: State, metawidgetReadOnly: bool, c: Child, writer: ResponseWriter) returns (thrown: bool)
      requires s.currentColumn >= 0
      modifies s, writer
      ensures var w := HtmlTableSpec.LayoutChild(old(s.Snapshot()), metawidgetReadOnly, c);
              s.Snapshot() == w.state && writer.events == old(writer.events) + w.events && thrown == w.thrown
    {
      ghost var before := writer.events;
      LayoutChildParts(s.Snapshot(), metawidgetReadOnly, c);
      s.currentColumn := s.currentColumn + 1;
      ghost var counted := s.Snapshot();
      thrown := LayoutBeforeChild(s, c, writer);
      if thrown {
        return;
      }
      ghost var out := BeforeChild(counted, c).events;
      writer.Delegate(Render(c.id));
      AppendAssoc(before, out, [Render(c.id)]);
      out := out + [Render(c.id)];
      ghost var mid := s.Snapshot();
      LayoutAfterChild(s, metawidgetReadOnly, c, writer);
      AppendAssoc(before, out, AfterChild(mid, metawidgetReadOnly, c).events);
    }

    /**
     * layoutBeforeChild: the section heading, the end of an open row before a
     * child that spans all columns, the start of a new row, the label cell,
     * the extra row of a zero-column layout and the start of the component
     * cell. `thrown` is the ArithmeticException of an empty row class list.
     */
    static method LayoutBeforeChild(s: State, c: Child, writer: ResponseWriter) returns (thrown: bool)
      requires s.currentColumn >= 1
      modifies s, writer
      ensures var w := BeforeChild(old(s.Snapshot()), c);
              s.Snapshot() == w.state && writer.events == old(writer.events) + w.events && thrown == w.thrown
    {
      ghost var s0 := s.Snapshot();
      ghost var before := writer.events;
      StartSection(s, c, writer);
      ghost var out := SectionStage(s0, c).events;
      ghost var s1 := s.Snapshot();
      EndRowBeforeSpanningChild(s, c, writer);
      AppendAssoc(before, out, WholeRowStage(s1, c).events);
      out := out + WholeRowStage(s1, c).events;
      ghost var s2 := s.Snapshot();
      thrown := StartRow(s, c, writer);
      AppendAssoc(before, out, NewRowStage(s2, c).events);
      out := out + NewRowStage(s2, c).events;
      if thrown {
        return;
      }
      var labelWritten := LayoutLabel(s.Snapshot().styles, c, writer);
      AppendAssoc(before, out, LabelEvents(s0.styles, c));
      out := out + LabelEvents(s0.styles, c);
      ghost var s3 := s.Snapshot();
      thrown := LayoutExtraRow(s.Snapshot(), c, labelWritten, writer);
      AppendAssoc(before, out, ExtraRowStage(s3, c).events);
      out := out + ExtraRowStage(s3, c).events;
      if thrown {
        return;
      }
      LayoutComponentCell(s, c, labelWritten, writer);
      AppendAssoc(before, out, ComponentCellStage(s3, c).events);
    }

    /** A child opening a new section gets its heading row and restarts the column count. */
    static method StartSection(s: State, c: Child, writer: ResponseWriter)
      modifies s, writer
      ensures var w := SectionStage(old(s.Snapshot()), c);
              s.Snapshot() == w.state && writer.events == old(writer.events) + w.events
    {
      if c.metadata.Some? {
        var section := c.metadata.value.section;
        if section.Some? && section != s.currentSection {
          s.currentSection := section;
          LayoutSection(s.Snapshot().styles, s.columns, section.value, writer);
          s.currentColumn := 1;
        }
      }
    }

    /** A child that spans all columns ends the open row first. */
    static method EndRowBeforeSpanningChild(s: State, c: Child, writer: ResponseWriter)
      modifies s, writer
      ensures var w := WholeRowStage(old(s.Snapshot()), c);
              s.Snapshot() == w.state && writer.events == old(writer.events) + w.events
    {
      if SpansAllColumns(c) && s.currentColumn != 1 {
        writer.EndElement("tr");
        s.currentColumn := 1;
      }
    }

    /** A new row, when the column count restarts or overflows. */
    static method StartRow(s: State, c: Child, writer: ResponseWriter) returns (thrown: bool)
      modifies s, writer
      ensures var w := NewRowStage(old(s.Snapshot()), c);
              s.Snapshot() == w.state && writer.events == old(writer.events) + w.events && thrown == w.thrown
    {
      ghost var s0 := s.Snapshot();
      thrown := false;
      if s.currentColumn == 1 || s.currentColumn > s.columns {
        s.currentColumn := 1;
        var currentRow := s.currentRow;
        thrown := OpenRow(c.cssId, ROW_SUFFIX, s.rowClasses, currentRow, writer);
        NewRowStageUnfold(s0, c);
        if !thrown {
          s.currentRow := currentRow + 1;
        }
      }
    }

    /** The extra row of a zero-column layout, classed like the label's row; `t` is the State's current value. */
    static method LayoutExtraRow(t: TableState, c: Child, labelWritten: bool, writer: ResponseWriter) returns (thrown: bool)
      requires labelWritten <==> c.labelString.Some?
      requires labelWritten && t.columns == 0 ==> t.currentRow >= 1
      modifies writer
      ensures var w := ExtraRowStage(t, c);
              writer.events == old(writer.events) + w.events && thrown == w.thrown
    {
      thrown := false;
      if labelWritten && t.columns == 0 {
        ghost var before := writer.events;
        writer.EndElement("tr");
        thrown := OpenRow(c.cssId, ROW_SUFFIX + "2", t.styles.rowClasses, t.currentRow - 1, writer);
        ExtraRowStageUnfold(t, c);
        ghost var rowStart := [Event.StartElement("tr")] + IdAttribute(c.cssId, ROW_SUFFIX + "2");
        if thrown {
          AppendAssoc(before, [Event.EndElement("tr")], rowStart);
        } else {
          AppendAssoc(before, [Event.EndElement("tr")], rowStart + RowStyleClass(t.styles.rowClasses, t.currentRow - 1).value);
        }
      } else {
        assert writer.events == old(writer.events) + [];
      }
    }

    /** The start of a row: its element, its id and its row class. `thrown` is the exception of an empty row class list. */
    static method OpenRow(cssId: Option<string>, suffix: string, rowClasses: Option<seq<string>>, rowStyleClass: nat,
                          writer: ResponseWriter) returns (thrown: bool)
      modifies writer
      ensures thrown <==> RowStyleClass(rowClasses, rowStyleClass).None?
      ensures thrown ==> writer.events == old(writer.events) + ([Event.StartElement("tr")] + IdAttribute(cssId, suffix))
      ensures !thrown ==> writer.events == old(writer.events) + ([Event.StartElement("tr")] + IdAttribute(cssId, suffix)
                                                                 + RowStyleClass(rowClasses, rowStyleClass).value)
    {
      ghost var before := writer.events;
      writer.StartElement("tr");
      WriteId(cssId, suffix, writer);
      AppendAssoc(before, [Event.StartElement("tr")], IdAttribute(cssId, suffix));
      thrown := WriteRowStyleClass(rowClasses, rowStyleClass, writer);
      if !thrown {
        AppendAssoc(before, [Event.StartElement("tr")] + IdAttribute(cssId, suffix), RowStyleClass(rowClasses, rowStyleClass).value);
      }
    }

    /** The start of the component cell, with its colspan; a spanning child claims the rest of the row. */
    static method LayoutComponentCell(s: State, c: Child, labelWritten: bool, writer: ResponseWriter)
      requires labelWritten <==> c.labelString.Some?
      modifies s, writer
      ensures var w := ComponentCellStage(old(s.Snapshot()), c);
              s.Snapshot() == w.state && writer.events == old(writer.events) + w.events
    {
      var columns, componentStyle, columnClasses := s.columns, s.componentStyle, s.columnClasses;
      ghost var before := writer.events;
      StartCell("td", c.cssId, COMPONENT_CELL_SUFFIX, componentStyle, columnClasses, 1, writer);
      ghost var out := [Event.StartElement("td")] + IdAttribute(c.cssId, COMPONENT_CELL_SUFFIX)
                       + StyleAttribute(componentStyle) + ColumnStyleClass(columnClasses, 1);
      var colspan;
      if c.kind.MetawidgetComponent? || c.kind.DataComponent? || (c.metadata.Some? && c.metadata.value.large) {
        colspan := columns * LABEL_AND_COMPONENT_AND_REQUIRED - 2;
        s.currentColumn := columns;
        if !labelWritten {
          colspan := colspan + 1;
        }
        if c.kind.MetawidgetComponent? && c.kind.rendererType == Some("table") {
          colspan := colspan + 1;
        }
      } else if !labelWritten {
        colspan := 2;
      } else {
        colspan := 1;
      }
      assert colspan == ComponentColspan(c, columns);
      if colspan > 1 {
        writer.WriteAttribute("colspan", NatToString(colspan));
      }
      AppendAssoc(before, out, ColspanAttribute(colspan));
    }

    /** layoutLabel: the label cell, when the child has a label. */
    static method LayoutLabel(styles: Styles, c: Child, writer: ResponseWriter) returns (labelWritten: bool)
      modifies writer
      ensures labelWritten <==> c.labelString.Some?
      ensures writer.events == old(writer.events) + LabelEvents(styles, c)
    {
      if c.labelString.None? {
        return false;
      }
      ghost var before := writer.events;
      StartCell("th", c.cssId, LABEL_CELL_SUFFIX, styles.labelStyle, styles.columnClasses, 0, writer);
      ghost var out := [Event.StartElement("th")] + IdAttribute(c.cssId, LABEL_CELL_SUFFIX)
                       + StyleAttribute(styles.labelStyle) + ColumnStyleClass(styles.columnClasses, 0);
      writer.Delegate(LabelText(c.id));
      AppendAssoc(before, out, [LabelText(c.id)]);
      out := out + [LabelText(c.id)];
      writer.EndElement("th");
      AppendAssoc(before, out, [Event.EndElement("th")]);
      labelWritten := true;
    }

    /** layoutSection: a heading row across the table; nothing for a blank section. */
    static method LayoutSection(styles: Styles, columns: int, section: string, writer: ResponseWriter)
      modifies writer
      ensures writer.events == old(writer.events) + SectionEvents(styles, columns, section)
    {
      if section == "" {
        return;
      }
      ghost var before := writer.events;
      SectionOpening(styles.sectionStyle, columns, writer);
      ghost var out := [Event.StartElement("tr"), Event.StartElement("th"), Attribute("colspan", NatToString(FullWidthColspan(columns)))]
                       + StyleAttribute(styles.sectionStyle);
      ghost var classAttr := if styles.sectionStyleClass.Some? then [Attribute("class", styles.sectionStyleClass.value)] else [];
      if styles.sectionStyleClass.Some? {
        writer.WriteAttribute("class", styles.sectionStyleClass.value);
      }
      AppendAssoc(before, out, classAttr);
      out := out + classAttr;
      SectionClosing(section, writer);
      AppendAssoc(before, out, [SectionHeading(section), Event.EndElement("th"), Event.EndElement("tr")]);
    }

    /** The heading cell of a section row, up to its style. */
    static method SectionOpening(sectionStyle: Option<string>, columns: int, writer: ResponseWriter)
      modifies writer
      ensures writer.events == old(writer.events)
                               + ([Event.StartElement("tr"), Event.StartElement("th"), Attribute("colspan", NatToString(FullWidthColspan(columns)))]
                                  + StyleAttribute(sectionStyle))
    {
      ghost var before := writer.events;
      writer.StartElement("tr");
      writer.StartElement("th");
      var colspan := if JUST_COMPONENT_AND_REQUIRED < columns * LABEL_AND_COMPONENT_AND_REQUIRED
                     then columns * LABEL_AND_COMPONENT_AND_REQUIRED else JUST_COMPONENT_AND_REQUIRED;
      assert colspan == FullWidthColspan(columns);
      writer.WriteAttribute("colspan", NatToString(colspan));
      ghost var out := [Event.StartElement("tr"), Event.StartElement("th"), Attribute("colspan", NatToString(colspan))];
      assert writer.events == before + out;
      WriteStyle(sectionStyle, writer);
      AppendAssoc(before, out, StyleAttribute(sectionStyle));
    }

    /** The heading text of a section row and the end of the row. */
    static method SectionClosing(section: string, writer: ResponseWriter)
      modifies writer
      ensures writer.events == old(writer.events) + [SectionHeading(section), Event.EndElement("th"), Event.EndElement("tr")]
    {
      writer.Delegate(SectionHeading(section));
      writer.EndElement("th");
      writer.EndElement("tr");
    }

    /** layoutAfterChild: closes the component cell, writes the required cell and ends a full row. */
    static method LayoutAfterChild(s: State, metawidgetReadOnly: bool, c: Child, writer: ResponseWriter)
      modifies s, writer
      ensures var w := AfterChild(old(s.Snapshot()), metawidgetReadOnly, c);
              s.Snapshot() == w.state && writer.events == old(writer.events) + w.events
    {
      ghost var s0 := s.Snapshot();
      ghost var before := writer.events;
      writer.EndElement("td");
      if !(c.kind.MetawidgetComponent? && c.kind.rendererType == Some("table")) && c.metadata.Some? {
        LayoutRequiredCell(s.Snapshot().styles, metawidgetReadOnly, c, writer);
      }
      AppendAssoc(before, [Event.EndElement("td")], RequiredCell(s0, metawidgetReadOnly, c));
      ghost var out := [Event.EndElement("td")] + RequiredCell(s0, metawidgetReadOnly, c);
      if s.currentColumn >= s.columns {
        s.currentColumn := 0;
        writer.EndElement("tr");
      }
      AppendAssoc(before, out, if s0.currentColumn >= s0.columns then [Event.EndElement("tr")] else []);
    }

    /** The required cell of layoutAfterChild. */
    static method LayoutRequiredCell(styles: Styles, metawidgetReadOnly: bool, c: Child, writer: ResponseWriter)
      requires HasRequiredCell(c)
      modifies writer
      ensures writer.events == old(writer.events)
                               + ([Event.StartElement("td")] + StyleAttribute(styles.requiredStyle)
                                  + ColumnStyleClass(styles.columnClasses, 2)
                                  + RequiredEvents(metawidgetReadOnly, c) + [Event.EndElement("td")])
    {
      ghost var before := writer.events;
      writer.StartElement("td");
      ghost var out := [Event.StartElement("td")];
      WriteStyle(styles.requiredStyle, writer);
      AppendAssoc(before, out, StyleAttribute(styles.requiredStyle));
      out := out + StyleAttribute(styles.requiredStyle);
      WriteColumnStyleClass(styles.columnClasses, 2, writer);
      AppendAssoc(before, out, ColumnStyleClass(styles.columnClasses, 2));
      out := out + ColumnStyleClass(styles.columnClasses, 2);
      LayoutRequired(metawidgetReadOnly, c, writer);
      AppendAssoc(before, out, RequiredEvents(metawidgetReadOnly, c));
      out := out + RequiredEvents(metawidgetReadOnly, c);
      writer.EndElement("td");
      AppendAssoc(before, out, [Event.EndElement("td")]);
    }

    /** layoutRequired: an asterisk for a required input the user can edit, an empty div otherwise. */
    static method LayoutRequired(metawidgetReadOnly: bool, c: Child, writer: ResponseWriter)
      modifies writer
      ensures writer.events == old(writer.events) + RequiredEvents(metawidgetReadOnly, c)
    {
      if c.metadata.Some? {
        var attributes := c.metadata.value;
        if attributes.required && !attributes.readOnly && !metawidgetReadOnly {
          if c.kind.InputComponent? || c.kind.StubComponent? {
            writer.Write("*");
            return;
          }
        }
      }
      writer.StartElement("div");
      writer.EndElement("div");
    }

    // -------------------------------------------------------------------------
    // Attributes
    // -------------------------------------------------------------------------

    /** The start of a label or component cell: its element, id, style and column class. */
    static method StartCell(name: string, cssId: Option<string>, suffix: string, style: Option<string>,
                            columnClasses: Option<seq<string>>, columnStyleClass: nat, writer: ResponseWriter)
      modifies writer
      ensures writer.events == old(writer.events)
                               + ([Event.StartElement(name)] + IdAttribute(cssId, suffix) + StyleAttribute(style)
                                  + ColumnStyleClass(columnClasses, columnStyleClass))
    {
      ghost var before := writer.events;
      writer.StartElement(name);
      WriteId(cssId, suffix, writer);
      AppendAssoc(before, [Event.StartElement(name)], IdAttribute(cssId, suffix));
      ghost var out := [Event.StartElement(name)] + IdAttribute(cssId, suffix);
      WriteStyle(style, writer);
      AppendAssoc(before, out, StyleAttribute(style));
      out := out + StyleAttribute(style);
      WriteColumnStyleClass(columnClasses, columnStyleClass, writer);
      AppendAssoc(before, out, ColumnStyleClass(columnClasses, columnStyleClass));
    }

    /** The id attribute of a row or cell, when the child has a CSS id. */
    static method WriteId(cssId: Option<string>, suffix: string, writer: ResponseWriter)
      modifies writer
      ensures writer.events == old(writer.events) + IdAttribute(cssId, suffix)
    {
      if cssId.Some? {
        writer.WriteAttribute("id", TABLE_PREFIX + cssId.value + suffix);
      }
    }

    /** The style attribute of a cell, when a style is set. */
    static method WriteStyle(style: Option<string>, writer: ResponseWriter)
      modifies writer
      ensures writer.events == old(writer.events) + StyleAttribute(style)
    {
      if style.Some? {
        writer.WriteAttribute("style", style.value);
      }
    }

    /** writeColumnStyleClass: column classes do not repeat. */
    static method WriteColumnStyleClass(columnClasses: Option<seq<string>>, columnStyleClass: nat, writer: ResponseWriter)
      modifies writer
      ensures writer.events == old(writer.events) + ColumnStyleClass(columnClasses, columnStyleClass)
    {
      if columnClasses.None? || |columnClasses.value| <= columnStyleClass {
        return;
      }
      var columnClass := columnClasses.value[columnStyleClass];
      if |columnClass| == 0 {
        return;
      }
      writer.WriteAttribute("class", Trim(columnClass));
    }

    /** writeRowStyleClass: row classes repeat; `thrown` is the exception of `% 0` on an empty list. */
    static method WriteRowStyleClass(rowClasses: Option<seq<string>>, rowStyleClass: nat, writer: ResponseWriter)
      returns (thrown: bool)
      modifies writer
      ensures thrown <==> RowStyleClass(rowClasses, rowStyleClass).None?
      ensures thrown ==> writer.events == old(writer.events)
      ensures !thrown ==> writer.events == old(writer.events) + RowStyleClass(rowClasses, rowStyleClass).value
    {
      if rowClasses.None? {
        return false;
      }
      if |rowClasses.value| == 0 {
        return true;
      }
      RemainderIsModulo(rowStyleClass, |rowClasses.value|);
      var rowClass := rowClasses.value[rowStyleClass % |rowClasses.value|];
      thrown := false;
      if |rowClass| == 0 {
        return;
      }
      writer.WriteAttribute("class", Trim(rowClass));
    }
  }

  /** Appending in two steps is appending once. */
  lemma AppendAssoc(a: seq<Event>, b: seq<Event>, c: seq<Event>)
    ensures a + (b + c) == (a + b) + c
  {
  }

  lemma AppendTriple(a: seq<Event>, x: Event, y: Event, z: Event)
    ensures a + [x] + [y] + [z] == a + [x, y, z]
  {
  }

  /** NewRowStage on a row start, by the outcome of writeRowStyleClass. */
  lemma NewRowStageUnfold(s: TableState, c: Child)
    requires StartsRow(s)
    ensures var opening := [Event.StartElement("tr")] + IdAttribute(c.cssId, ROW_SUFFIX);
            var rowClass := RowStyleClass(s.styles.rowClasses, s.currentRow);
            NewRowStage(s, c)
            == if rowClass.None? then Written(s.(currentColumn := 1), opening, true)
               else Written(s.(currentColumn := 1, currentRow := s.currentRow + 1), opening + rowClass.value, false)
  {
  }

  /** ExtraRowStage on a labelled child of a zero-column layout, by the outcome of writeRowStyleClass. */
  lemma ExtraRowStageUnfold(s: TableState, c: Child)
    requires c.labelString.Some? && s.columns == 0 && s.currentRow >= 1
    ensures var rowStart := [Event.StartElement("tr")] + IdAttribute(c.cssId, ROW_SUFFIX + "2");
            var rowClass := RowStyleClass(s.styles.rowClasses, s.currentRow - 1);
            ExtraRowStage(s, c)
            == if rowClass.None? then Written(s, [Event.EndElement("tr")] + rowStart, true)
               else Written(s, [Event.EndElement("tr")] + (rowStart + rowClass.value), false)
  {
    TwoThenRest(Event.EndElement("tr"), Event.StartElement("tr"), IdAttribute(c.cssId, ROW_SUFFIX + "2"));
    if RowStyleClass(s.styles.rowClasses, s.currentRow - 1).Some? {
      AppendAssoc([Event.EndElement("tr")], [Event.StartElement("tr")] + IdAttribute(c.cssId, ROW_SUFFIX + "2"),
                  RowStyleClass(s.styles.rowClasses, s.currentRow - 1).value);
    }
  }

  lemma TwoThenRest(x: Event, y: Event, rest: seq<Event>)
    ensures [x, y] + rest == [x] + ([y] + rest)
  {
  }

  /** One more child: the loop of encodeChildren takes one step of LayoutChildren. */
  lemma LayoutChildrenStep(s: TableState, metawidgetReadOnly: bool, children: seq<Child>, i: nat)
    requires s.currentColumn >= 0 && i < |children|
    requires !LayoutChildren(s, metawidgetReadOnly, children[..i]).thrown
    ensures var w := LayoutChildren(s, metawidgetReadOnly, children[..i]);
            var c := children[i];
            LayoutChildren(s, metawidgetReadOnly, children[..i + 1])
            == if Visible(c) then
                 var next := HtmlTableSpec.LayoutChild(w.state, metawidgetReadOnly, c);
                 Written(next.state, w.events + next.events, next.thrown)
               else w
  {
    assert children[..i + 1][..i] == children[..i];
  }

  /** Once a child throws, the children after it change nothing: the loop has ended. */
  lemma {:induction false} LayoutChildrenStopsAfterThrow(s: TableState, metawidgetReadOnly: bool, children: seq<Child>, n: nat)
    requires s.currentColumn >= 0
    requires n <= |children| && LayoutChildren(s, metawidgetReadOnly, children[..n]).thrown
    ensures LayoutChildren(s, metawidgetReadOnly, children) == LayoutChildren(s, metawidgetReadOnly, children[..n])
    decreases |children| - n
  {
    if n < |children| {
      assert children[..|children| - 1][..n] == children[..n];
      LayoutChildrenStopsAfterThrow(s, metawidgetReadOnly, children[..|children| - 1], n);
    } else {
      assert children[..n] == children;
    }
  }
}
