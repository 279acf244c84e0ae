/**
 * What a whole table written by HtmlTableLayoutRenderer looks like: the
 * components rendered into it, the rows the layout starts, the classes those
 * rows get, and the exception an empty row class list raises. Also the two
 * places where the layout as written departs from its own intent.
 */
module HtmlTableProperties {
  import opened JavaLang
  import opened HtmlTableSpec
  import opened HtmlTableRows

  // ---------------------------------------------------------------------------
  // Rendered components
  // ---------------------------------------------------------------------------

  /** The components rendered, in the order they are rendered. */
  function Renders(es: seq<Event>): seq<nat>
    decreases |es|
  {
    if es == [] then [] else (if es[0].Render? then [es[0].component] else []) + Renders(es[1..])
  }

  lemma {:induction false} RendersAppend(a: seq<Event>, b: seq<Event>)
    ensures Renders(a + b) == Renders(a) + Renders(b)
    decreases |a|
  {
    if a == [] {
      assert a + b == b;
    } else {
      assert (a + b)[1..] == a[1..] + b;
      RendersAppend(a[1..], b);
      IdsAssoc(if a[0].Render? then [a[0].component] else [], Renders(a[1..]), Renders(b));
    }
  }

  lemma IdsAssoc(x: seq<nat>, y: seq<nat>, z: seq<nat>)
    ensures x + (y + z) == (x + y) + z
  {
  }

  lemma {:induction false} RendersNone(es: seq<Event>)
    requires NoRenders(es)
    ensures Renders(es) == []
    decreases |es|
  {
    if es != [] {
      assert !es[0].Render?;
      assert NoRenders(es[1..]) by {
        forall k | 0 <= k < |es[1..]| ensures !es[1..][k].Render? {
          assert es[1..][k] == es[k + 1];
        }
      }
      RendersNone(es[1..]);
    }
  }

  /** The ids of the children encodeChildren lays out, in order. */
  function VisibleIds(children: seq<Child>): (r: seq<nat>)
    ensures |r| <= |children|
    decreases |children|
  {
    if children == [] then []
    else
      var c := children[|children| - 1];
      VisibleIds(children[..|children| - 1]) + (if Visible(c) then [c.id] else [])
  }

  /** The ids of the hidden inputs among the children, in order. */
  function HiddenInputIds(children: seq<Child>): (r: seq<nat>)
    ensures |r| <= |children|
    decreases |children|
  {
    if children == [] then []
    else
      var c := children[|children| - 1];
      HiddenInputIds(children[..|children| - 1]) + (if c.kind.HiddenInputComponent? then [c.id] else [])
  }

  /** layoutHiddenChildren renders exactly the hidden inputs, in order, and nothing else. */
  lemma {:induction false} HiddenChildrenRendersHiddenInputs(children: seq<Child>)
    ensures Renders(HiddenChildren(children)) == HiddenInputIds(children)
    decreases |children|
  {
    if children != [] {
      var prefix := children[..|children| - 1];
      var c := children[|children| - 1];
      HiddenChildrenRendersHiddenInputs(prefix);
      var last := if c.kind.HiddenInputComponent? then [Render(c.id)] else [];
      RendersAppend(HiddenChildren(prefix), last);
      if c.kind.HiddenInputComponent? {
        assert last[1..] == [];
      }
    }
  }

  /** layoutBeforeChild renders no component: labels and section names are not components. */
  lemma BeforeChildRendersNothing(s: TableState, c: Child)
    requires s.currentColumn >= 1
    ensures NoRenders(BeforeChild(s, c).events)
  {
    var w1 := SectionStage(s, c);
    var w2 := WholeRowStage(w1.state, c);
    var w3 := NewRowStage(w2.state, c);
    NoRendersAppend(w1.events, w2.events);
    NoRendersAppend(w1.events + w2.events, w3.events);
    if !w3.thrown {
      var labelEvents := LabelEvents(s.styles, c);
      var w5 := ExtraRowStage(w3.state, c);
      NoRendersAppend(w1.events + w2.events + w3.events, labelEvents);
      NoRendersAppend(w1.events + w2.events + w3.events + labelEvents, w5.events);
      if !w5.thrown {
        var w6 := ComponentCellStage(w5.state, c);
        NoRendersAppend(w1.events + w2.events + w3.events + labelEvents + w5.events, w6.events);
      }
    }
  }

  /** A child that is laid out is rendered exactly once, between its label and its required cell. */
  lemma LayoutChildRendersIt(s: TableState, metawidgetReadOnly: bool, c: Child)
    requires s.currentColumn >= 0
    ensures var w := LayoutChild(s, metawidgetReadOnly, c);
            Renders(w.events) == (if w.thrown then [] else [c.id])
  {
    var before := BeforeChild(s.(currentColumn := s.currentColumn + 1), c);
    BeforeChildRendersNothing(s.(currentColumn := s.currentColumn + 1), c);
    RendersNone(before.events);
    if !before.thrown {
      var after := AfterChild(before.state, metawidgetReadOnly, c);
      RendersNone(after.events);
      RendersAround(before.events, c.id, after.events);
      LayoutChildParts(s, metawidgetReadOnly, c);
    }
  }

  /** Between events that render nothing, exactly the one component is rendered. */
  lemma RendersAround(a: seq<Event>, component: nat, b: seq<Event>)
    requires Renders(a) == [] && Renders(b) == []
    ensures Renders(a + [Render(component)] + b) == [component]
  {
    RendersAppend(a + [Render(component)], b);
    RendersAppend(a, [Render(component)]);
    assert [Render(component)][1..] == [];
  }

  /**
   * encodeChildren renders exactly the visible children, each once and in
   * document order: stubs without a rendered child, parameters, hidden
   * inputs and unrendered components are skipped.
   */
  lemma {:induction false} LayoutChildrenRendersVisible(s: TableState, metawidgetReadOnly: bool, children: seq<Child>)
    requires s.currentColumn >= 0 && s.columns >= 0
    ensures var w := LayoutChildren(s, metawidgetReadOnly, children);
            !w.thrown ==> Renders(w.events) == VisibleIds(children)
    decreases |children|
  {
    if children != [] {
      var prefix := children[..|children| - 1];
      var c := children[|children| - 1];
      LayoutChildrenRendersVisible(s, metawidgetReadOnly, prefix);
      var w := LayoutChildren(s, metawidgetReadOnly, prefix);
      if !w.thrown && Visible(c) {
        var next := LayoutChild(w.state, metawidgetReadOnly, c);
        LayoutChildRendersIt(w.state, metawidgetReadOnly, c);
        RendersAppend(w.events, next.events);
      }
    }
  }

  /** As written, layoutBeforeChild renders no component either. */
  lemma BeforeChildAsWrittenRendersNothing(s: TableState, c: Child)
    requires s.currentColumn >= 1
    ensures NoRenders(BeforeChildAsWritten(s, c).events)
  {
    var w1 := SectionStage(s, c);
    var w2 := WholeRowStageAsWritten(w1.state, c);
    var w3 := NewRowStage(w2.state, c);
    NoRendersAppend(w1.events, w2.events);
    NoRendersAppend(w1.events + w2.events, w3.events);
    if !w3.thrown {
      var labelEvents := LabelEvents(s.styles, c);
      var w5 := ExtraRowStageAsWritten(w3.state, c);
      NoRendersAppend(w1.events + w2.events + w3.events, labelEvents);
      NoRendersAppend(w1.events + w2.events + w3.events + labelEvents, w5.events);
      if !w5.thrown {
        var w6 := ComponentCellStage(w5.state, c);
        NoRendersAppend(w1.events + w2.events + w3.events + labelEvents + w5.events, w6.events);
      }
    }
  }

  /** As written, a child that is laid out is rendered exactly once as well. */
  lemma LayoutChildAsWrittenRendersIt(s: TableState, metawidgetReadOnly: bool, c: Child)
    requires s.currentColumn >= 0
    ensures var w := LayoutChildAsWritten(s, metawidgetReadOnly, c);
            Renders(w.events) == (if w.thrown then [] else [c.id])
  {
    var before := BeforeChildAsWritten(s.(currentColumn := s.currentColumn + 1), c);
    BeforeChildAsWrittenRendersNothing(s.(currentColumn := s.currentColumn + 1), c);
    RendersNone(before.events);
    if !before.thrown {
      var after := AfterChild(before.state, metawidgetReadOnly, c);
      RendersNone(after.events);
      RendersAround(before.events, c.id, after.events);
      LayoutChildAsWrittenParts(s, metawidgetReadOnly, c);
    }
  }

  /**
   * The departures of the layout as written change where rows start, not
   * what is rendered: encodeChildren as written also renders exactly the
   * visible children, in order, and starts at most one row per child.
   */
  lemma {:induction false} LayoutChildrenAsWrittenRendersVisible(s: TableState, metawidgetReadOnly: bool, children: seq<Child>)
    requires s.currentColumn >= 0
    ensures var w := LayoutChildrenAsWritten(s, metawidgetReadOnly, children);
            (!w.thrown ==> Renders(w.events) == VisibleIds(children))
            && w.state.currentRow <= s.currentRow + |VisibleIds(children)|
    decreases |children|
  {
    if children != [] {
      var prefix := children[..|children| - 1];
      var c := children[|children| - 1];
      LayoutChildrenAsWrittenRendersVisible(s, metawidgetReadOnly, prefix);
      var w := LayoutChildrenAsWritten(s, metawidgetReadOnly, prefix);
      if !w.thrown && Visible(c) {
        var next := LayoutChildAsWritten(w.state, metawidgetReadOnly, c);
        LayoutChildAsWrittenRendersIt(w.state, metawidgetReadOnly, c);
        RendersAppend(w.events, next.events);
      }
    }
  }

  /**
   * Correcting the layout changes where rows break, not what is rendered: with
   * usable row classes, both versions render the same components in the same order.
   */
  lemma AsWrittenRendersLikeCorrected(s: TableState, metawidgetReadOnly: bool, children: seq<Child>)
    requires s.currentColumn >= 0 && s.columns >= 0 && s.styles.rowClasses != Some([])
    ensures var asWritten := LayoutChildrenAsWritten(s, metawidgetReadOnly, children);
            var corrected := LayoutChildren(s, metawidgetReadOnly, children);
            !asWritten.thrown && !corrected.thrown
            && Renders(asWritten.events) == Renders(corrected.events)
  {
    LayoutChildrenAsWrittenRendersVisible(s, metawidgetReadOnly, children);
    LayoutChildrenRendersVisible(s, metawidgetReadOnly, children);
  }

  // ---------------------------------------------------------------------------
  // Rows and row classes
  // ---------------------------------------------------------------------------

  /** Each laid-out child starts at most one row. */
  lemma {:induction false} AtMostOneRowPerChild(s: TableState, metawidgetReadOnly: bool, children: seq<Child>)
    requires s.currentColumn >= 0 && s.columns >= 0
    ensures LayoutChildren(s, metawidgetReadOnly, children).state.currentRow <= s.currentRow + |VisibleIds(children)|
    decreases |children|
  {
    if children != [] {
      AtMostOneRowPerChild(s, metawidgetReadOnly, children[..|children| - 1]);
    }
  }

  /** With the default single column, every visible child gets a row of its own. */
  lemma {:induction false} OneColumnOneRowPerChild(s: TableState, metawidgetReadOnly: bool, children: seq<Child>)
    requires s.columns == 1 && s.currentColumn == 0 && s.styles.rowClasses != Some([])
    ensures var w := LayoutChildren(s, metawidgetReadOnly, children);
            w.state.currentRow == s.currentRow + |VisibleIds(children)| && w.state.currentColumn == 0
    decreases |children|
  {
    if children != [] {
      OneColumnOneRowPerChild(s, metawidgetReadOnly, children[..|children| - 1]);
      OneColumnChild(LayoutChildren(s, metawidgetReadOnly, children[..|children| - 1]).state, metawidgetReadOnly,
                     children[|children| - 1]);
    }
  }

  lemma OneColumnChild(s: TableState, metawidgetReadOnly: bool, c: Child)
    ensures s.columns == 1 && s.currentColumn == 0 && s.styles.rowClasses != Some([]) ==>
              var w := LayoutChild(s, metawidgetReadOnly, c);
              w.state.currentRow == s.currentRow + 1 && w.state.currentColumn == 0
  {
    if s.columns == 1 && s.currentColumn == 0 {
      LayoutChildParts(s, metawidgetReadOnly, c);
    }
  }

  /**
   * An empty row class list (a rowClasses parameter made only of commas)
   * makes the first visible child raise the exception of `% 0`, before it is
   * rendered; with no visible child nothing happens.
   */
  lemma {:induction false} EmptyRowClassesThrow(s: TableState, metawidgetReadOnly: bool, children: seq<Child>)
    requires s.currentColumn == 0 && s.columns >= 0 && s.styles.rowClasses == Some([])
    ensures var w := LayoutChildren(s, metawidgetReadOnly, children);
            (w.thrown <==> VisibleIds(children) != [])
            && (VisibleIds(children) == [] ==> w.state == s && w.events == [])
    decreases |children|
  {
    if children != [] {
      EmptyRowClassesThrow(s, metawidgetReadOnly, children[..|children| - 1]);
    }
  }

  /** Row classes repeat: row `index` and row `index + k * |rowClasses|` get the same class. */
  lemma RowClassesRepeat(rowClasses: seq<string>, index: nat, k: nat)
    requires rowClasses != []
    ensures RowStyleClass(Some(rowClasses), index + k * |rowClasses|) == RowStyleClass(Some(rowClasses), index)
  {
    RemainderRepeats(index, |rowClasses|, k);
    SameRemainderSameClass(rowClasses, index + k * |rowClasses|, index);
  }

  lemma SameRemainderSameClass(rowClasses: seq<string>, x: nat, y: nat)
    ensures rowClasses != [] && Remainder(x, |rowClasses|) == Remainder(y, |rowClasses|) ==>
              RowStyleClass(Some(rowClasses), x) == RowStyleClass(Some(rowClasses), y)
  {
  }

  lemma {:induction false} RemainderRepeats(index: nat, n: nat, k: nat)
    requires n > 0
    ensures Remainder(index + k * n, n) == Remainder(index, n)
    decreases k
  {
    if k > 0 {
      RemainderRepeats(index, n, k - 1);
      MultipleStep(k, n);
      assert Remainder(index + (k - 1) * n + n, n) == Remainder(index + (k - 1) * n, n);
    }
  }

  lemma MultipleStep(k: nat, n: nat)
    requires k > 0
    ensures k * n == (k - 1) * n + n
  {
  }

  // ---------------------------------------------------------------------------
  // The whole table
  // ---------------------------------------------------------------------------

  /** A header or footer row is exactly as wide as the table. */
  lemma ScanFacetRow(t: Table, group: string, prefix: string, facet: nat, columns: int)
    requires !t.open && (group == "thead" || group == "tfoot")
    ensures Scan(t, FacetRow(group, prefix, facet, columns)) == Table(t.rows + [FullWidthColspan(columns)], false, 0)
  {
    var row := [StartElement("tr"), StartElement("td"), Attribute("colspan", NatToString(FullWidthColspan(columns)))]
               + [StyleAndClass(prefix), Render(facet)] + [EndElement("td"), EndElement("tr")];
    assert FacetRow(group, prefix, facet, columns) == [StartElement(group)] + (row + [EndElement(group)]);
    ScanCons(t, StartElement(group), row + [EndElement(group)]);
    ScanAppend(t, row, [EndElement(group)]);
    ScanFullRow(t, "td", FullWidthColspan(columns), [StyleAndClass(prefix), Render(facet)]);
    ScanOne(Table(t.rows + [FullWidthColspan(columns)], false, 0), EndElement(group));
  }

  /** The table up to the start of its body: only the header and footer rows. */
  lemma BeginShape(m: Metawidget)
    requires !Begin(m).thrown
    ensures var t := Scan(EMPTY_TABLE, Begin(m).events);
            var full := FullWidthColspan(Begin(m).state.columns);
            !t.open && |t.rows| == Count(m.header.Some?) + Count(m.footer.Some?)
            && forall k :: 0 <= k < |t.rows| ==> t.rows[k] == full
  {
    AllNeutralAppend(HiddenChildren(m.children), [StartElement("table"), Attribute("id", m.clientId), StyleAndClass("table")]);
    ScanAppend(EMPTY_TABLE, TableStart(m), FacetRows(m, BeginState(m.parameters).columns));
    ScanNeutral(EMPTY_TABLE, TableStart(m));
    ScanFacetRows(m, BeginState(m.parameters).columns);
  }

  /** The header and footer rows, each as wide as the table, and the start of the body, which opens no row. */
  lemma ScanFacetRows(m: Metawidget, columns: int)
    ensures var t := Scan(EMPTY_TABLE, FacetRows(m, columns));
            !t.open && |t.rows| == Count(m.header.Some?) + Count(m.footer.Some?)
            && forall k :: 0 <= k < |t.rows| ==> t.rows[k] == FullWidthColspan(columns)
  {
    var header := if m.header.Some? then FacetRow("thead", "header", m.header.value, columns) else [];
    var footer := if m.footer.Some? then FacetRow("tfoot", "footer", m.footer.value, columns) else [];
    ScanAppend(EMPTY_TABLE, header + footer, [StartElement("tbody")]);
    ScanAppend(EMPTY_TABLE, header, footer);
    if m.header.Some? {
      ScanFacetRow(EMPTY_TABLE, "thead", "header", m.header.value, columns);
    }
    if m.footer.Some? {
      ScanFacetRow(Scan(EMPTY_TABLE, header), "tfoot", "footer", m.footer.value, columns);
    }
    ScanOne(Scan(EMPTY_TABLE, header + footer), StartElement("tbody"));
  }

  /**
   * With one or more columns and a usable row class list, the whole table
   * (encodeBegin, encodeChildren, encodeEnd) renders every visible child once,
   * in order, and no row of it is wider than the header: 3 * columns cells,
   * the width every header, footer and section row has.
   */
  lemma EncodedTableFitsHeader(m: Metawidget)
    requires m.parameters.columns.None? || m.parameters.columns.value >= 1
    requires m.parameters.rowClasses.None? || SplitComma(m.parameters.rowClasses.value) != []
    ensures var begin := Begin(m);
            var children := LayoutChildren(ChildrenStart(begin.state), m.readOnly, m.children);
            var t := Scan(EMPTY_TABLE, begin.events + children.events + END_EVENTS);
            !begin.thrown && !children.thrown
            && Renders(children.events) == VisibleIds(m.children)
            && !t.open
            && forall k :: 0 <= k < |t.rows| ==> t.rows[k] <= FullWidthColspan(begin.state.columns)
  {
    BeginTableShape(m);
    var begin := Begin(m);
    var t0 := Scan(EMPTY_TABLE, begin.events);
    LayoutChildrenKeepsShape(t0, ChildrenStart(begin.state), m.readOnly, m.children);
    LayoutChildrenRendersVisible(ChildrenStart(begin.state), m.readOnly, m.children);
    var children := LayoutChildren(ChildrenStart(begin.state), m.readOnly, m.children);
    ScanAppend(EMPTY_TABLE, begin.events, children.events);
    ScanAppend(EMPTY_TABLE, begin.events + children.events, END_EVENTS);
    ScanEndEvents(Scan(t0, children.events), LABEL_AND_COMPONENT_AND_REQUIRED * begin.state.columns);
  }

  /** After encodeBegin with one or more columns, the table has the shape the children keep. */
  lemma BeginTableShape(m: Metawidget)
    requires m.parameters.columns.None? || m.parameters.columns.value >= 1
    requires m.parameters.rowClasses.None? || SplitComma(m.parameters.rowClasses.value) != []
    ensures !Begin(m).thrown && Begin(m).state.columns >= 1
    ensures TableShape(Scan(EMPTY_TABLE, Begin(m).events), ChildrenStart(Begin(m).state))
    ensures ChildrenStart(Begin(m).state).styles.rowClasses != Some([])
  {
    BeginShape(m);
  }

  /** The ids of the header and footer facets that are present, header first. */
  function FacetIds(m: Metawidget): seq<nat> {
    (if m.header.Some? then [m.header.value] else []) + (if m.footer.Some? then [m.footer.value] else [])
  }

  /** A header or footer row renders its facet and nothing else. */
  lemma FacetRowRenders(group: string, prefix: string, facet: nat, columns: int)
    ensures Renders(FacetRow(group, prefix, facet, columns)) == [facet]
  {
    var before := [StartElement(group), StartElement("tr"), StartElement("td"),
                   Attribute("colspan", NatToString(FullWidthColspan(columns))), StyleAndClass(prefix)];
    var after := [EndElement("td"), EndElement("tr"), EndElement(group)];
    assert FacetRow(group, prefix, facet, columns) == before + [Render(facet)] + after;
    RendersNone(before);
    RendersNone(after);
    RendersAround(before, facet, after);
  }

  /** encodeBegin renders the hidden inputs, then the header and the footer, unless `columns` is negative. */
  lemma BeginRenders(m: Metawidget)
    ensures Renders(Begin(m).events) == HiddenInputIds(m.children) + (if Begin(m).thrown then [] else FacetIds(m))
  {
    TableStartRenders(m);
    if !Begin(m).thrown {
      var columns := BeginState(m.parameters).columns;
      RendersAppend(TableStart(m), FacetRows(m, columns));
      FacetRowsRender(m, columns);
    }
  }

  /** The start of the table renders only the hidden inputs. */
  lemma TableStartRenders(m: Metawidget)
    ensures Renders(TableStart(m)) == HiddenInputIds(m.children)
  {
    var opening := [StartElement("table"), Attribute("id", m.clientId), StyleAndClass("table")];
    HiddenChildrenRendersHiddenInputs(m.children);
    RendersAppend(HiddenChildren(m.children), opening);
    RendersNone(opening);
  }

  /** The header and footer rows render their facets, header first. */
  lemma FacetRowsRender(m: Metawidget, columns: int)
    ensures Renders(FacetRows(m, columns)) == FacetIds(m)
  {
    var header := if m.header.Some? then FacetRow("thead", "header", m.header.value, columns) else [];
    var footer := if m.footer.Some? then FacetRow("tfoot", "footer", m.footer.value, columns) else [];
    RendersAppend(header + footer, [StartElement("tbody")]);
    RendersAppend(header, footer);
    RendersNone([StartElement("tbody")]);
    if m.header.Some? {
      FacetRowRenders("thead", "header", m.header.value, columns);
    }
    if m.footer.Some? {
      FacetRowRenders("tfoot", "footer", m.footer.value, columns);
    }
  }

  /**
   * What the whole table renders, with one or more columns and a usable row
   * class list: the hidden inputs before the table, the header, the footer,
   * and then every visible child once, in order.
   */
  lemma EncodingRenders(m: Metawidget)
    requires m.parameters.columns.None? || m.parameters.columns.value >= 1
    requires m.parameters.rowClasses.None? || SplitComma(m.parameters.rowClasses.value) != []
    ensures var begin := Begin(m);
            var children := LayoutChildren(ChildrenStart(begin.state), m.readOnly, m.children);
            Renders(begin.events + children.events + END_EVENTS)
            == HiddenInputIds(m.children) + FacetIds(m) + VisibleIds(m.children)
  {
    BeginTableShape(m);
    BeginRenders(m);
    var begin := Begin(m);
    LayoutChildrenRendersVisible(ChildrenStart(begin.state), m.readOnly, m.children);
    var children := LayoutChildren(ChildrenStart(begin.state), m.readOnly, m.children);
    RendersAppend(begin.events, children.events);
    RendersAppend(begin.events + children.events, END_EVENTS);
    RendersNone(END_EVENTS);
  }

  /** encodeEnd closes the open row; every row still fits. */
  lemma ScanEndEvents(t: Table, bound: int)
    ensures Fits(t, bound) && bound >= 0 ==> !Scan(t, END_EVENTS).open && Fits(Scan(t, END_EVENTS), bound)
  {
    assert END_EVENTS == [EndElement("tbody")] + [EndElement("table")];
    ScanAppend(t, [EndElement("tbody")], [EndElement("table")]);
    ScanOne(t, EndElement("tbody"));
    ScanOne(Table(ClosedRows(t), false, 0), EndElement("table"));
    ClosedRowsFit(t, bound);
  }

  // ---------------------------------------------------------------------------
  // Where the layout as written departs from its intent
  // ---------------------------------------------------------------------------

  /**
   * In a zero-column layout every labelled child starts a row for its label
   * and then an extra row for its component, and both rows get the same
   * class: the one of the row count before the child.
   */
  lemma ZeroColumnRowsShareClass(s: TableState, c: Child)
    requires s.columns == 0 && s.currentColumn >= 1 && c.labelString.Some? && s.styles.rowClasses != Some([])
    ensures var w2 := WholeRowStage(SectionStage(s, c).state, c);
            var w3 := NewRowStage(w2.state, c);
            var rowClass := RowStyleClass(s.styles.rowClasses, s.currentRow).value;
            w3.events == [StartElement("tr")] + IdAttribute(c.cssId, ROW_SUFFIX) + rowClass
            && ExtraRowStage(w3.state, c).events
               == [EndElement("tr"), StartElement("tr")] + IdAttribute(c.cssId, ROW_SUFFIX + "2") + rowClass
  {
  }

  /**
   * As written, the extra row takes the class of the next row instead: with
   * row classes "odd,even" the first child's label row is "odd" and its
   * component row "even", where the corrected layout gives "odd" to both.
   */
  lemma ZeroColumnRowsDifferAsWritten()
    ensures var s := TableState(1, 0, 0, None, NO_STYLES.(rowClasses := Some(["odd", "even"])));
            var c := Child(1, InputComponent, true, None, Some("Name"), None);
            BeforeChildAsWritten(s, c).events
            == [StartElement("tr"), Attribute("class", "odd")] + [StartElement("th"), LabelText(1), EndElement("th")]
               + [EndElement("tr"), StartElement("tr"), Attribute("class", "even")] + [StartElement("td")]
            && BeforeChild(s, c).events
            == [StartElement("tr"), Attribute("class", "odd")] + [StartElement("th"), LabelText(1), EndElement("th")]
               + [EndElement("tr"), StartElement("tr"), Attribute("class", "odd")] + [StartElement("td")]
  {
    var s := TableState(1, 0, 0, None, NO_STYLES.(rowClasses := Some(["odd", "even"])));
    var c := Child(1, InputComponent, true, None, Some("Name"), None);
    OddEvenStages(s, c);
    var opening := [StartElement("tr"), Attribute("class", "odd")];
    assert [] + [] + opening == opening;
  }

  /** The stages of the first labelled child of a zero-column layout with row classes "odd,even". */
  lemma OddEvenStages(s: TableState, c: Child)
    requires s == TableState(1, 0, 0, None, NO_STYLES.(rowClasses := Some(["odd", "even"])))
    requires c == Child(1, InputComponent, true, None, Some("Name"), None)
    ensures SectionStage(s, c) == Written(s, [], false)
    ensures WholeRowStage(s, c) == Written(s, [], false) && WholeRowStageAsWritten(s, c) == Written(s, [], false)
    ensures LabelEvents(s.styles, c) == [StartElement("th"), LabelText(1), EndElement("th")]
    ensures NewRowStage(s, c) == Written(s.(currentRow := 1), [StartElement("tr"), Attribute("class", "odd")], false)
    ensures ComponentCellStage(s.(currentRow := 1), c) == Written(s.(currentRow := 1), [StartElement("td")], false)
    ensures ExtraRowStageAsWritten(s.(currentRow := 1), c)
            == Written(s.(currentRow := 1), [EndElement("tr"), StartElement("tr"), Attribute("class", "even")], false)
    ensures ExtraRowStage(s.(currentRow := 1), c)
            == Written(s.(currentRow := 1), [EndElement("tr"), StartElement("tr"), Attribute("class", "odd")], false)
  {
    OddEvenLabel(s, c);
    OddEvenRowStages(s, c);
    OddEvenCell(s.(currentRow := 1), c);
  }

  lemma OddEvenLabel(s: TableState, c: Child)
    requires s == TableState(1, 0, 0, None, NO_STYLES.(rowClasses := Some(["odd", "even"])))
    requires c == Child(1, InputComponent, true, None, Some("Name"), None)
    ensures LabelEvents(s.styles, c) == [StartElement("th"), LabelText(1), EndElement("th")]
  {
    assert IdAttribute(c.cssId, LABEL_CELL_SUFFIX) == [];
    assert StyleAttribute(s.styles.labelStyle) == [];
    assert ColumnStyleClass(s.styles.columnClasses, 0) == [];
  }

  lemma OddEvenCell(s: TableState, c: Child)
    requires s == TableState(1, 0, 1, None, NO_STYLES.(rowClasses := Some(["odd", "even"])))
    requires c == Child(1, InputComponent, true, None, Some("Name"), None)
    ensures ComponentCellStage(s, c) == Written(s, [StartElement("td")], false)
  {
    assert ComponentColspan(c, 0) == 1;
    assert IdAttribute(c.cssId, COMPONENT_CELL_SUFFIX) == [];
    assert StyleAttribute(s.styles.componentStyle) == [];
    assert ColumnStyleClass(s.styles.columnClasses, 1) == [];
  }

  lemma OddEvenRowStages(s: TableState, c: Child)
    requires s == TableState(1, 0, 0, None, NO_STYLES.(rowClasses := Some(["odd", "even"])))
    requires c == Child(1, InputComponent, true, None, Some("Name"), None)
    ensures NewRowStage(s, c) == Written(s.(currentRow := 1), [StartElement("tr"), Attribute("class", "odd")], false)
    ensures ExtraRowStageAsWritten(s.(currentRow := 1), c)
            == Written(s.(currentRow := 1), [EndElement("tr"), StartElement("tr"), Attribute("class", "even")], false)
    ensures ExtraRowStage(s.(currentRow := 1), c)
            == Written(s.(currentRow := 1), [EndElement("tr"), StartElement("tr"), Attribute("class", "odd")], false)
  {
    OddEvenNewRow(s, c);
    OddEvenExtraRowAsWritten(s.(currentRow := 1), c);
    OddEvenExtraRow(s.(currentRow := 1), c);
  }

  lemma OddEvenNewRow(s: TableState, c: Child)
    requires s == TableState(1, 0, 0, None, NO_STYLES.(rowClasses := Some(["odd", "even"])))
    requires c == Child(1, InputComponent, true, None, Some("Name"), None)
    ensures NewRowStage(s, c) == Written(s.(currentRow := 1), [StartElement("tr"), Attribute("class", "odd")], false)
  {
    OddEvenClasses();
    NewRowOneClass(s, c, Attribute("class", "odd"));
  }

  lemma OddEvenExtraRowAsWritten(s: TableState, c: Child)
    requires s == TableState(1, 0, 1, None, NO_STYLES.(rowClasses := Some(["odd", "even"])))
    requires c == Child(1, InputComponent, true, None, Some("Name"), None)
    ensures ExtraRowStageAsWritten(s, c) == Written(s, [EndElement("tr"), StartElement("tr"), Attribute("class", "even")], false)
  {
    OddEvenClasses();
    ExtraRowOneClass(s, c, Attribute("class", "even"), Attribute("class", "odd"));
  }

  lemma OddEvenExtraRow(s: TableState, c: Child)
    requires s == TableState(1, 0, 1, None, NO_STYLES.(rowClasses := Some(["odd", "even"])))
    requires c == Child(1, InputComponent, true, None, Some("Name"), None)
    ensures ExtraRowStage(s, c) == Written(s, [EndElement("tr"), StartElement("tr"), Attribute("class", "odd")], false)
  {
    OddEvenClasses();
    ExtraRowOneClass(s, c, Attribute("class", "even"), Attribute("class", "odd"));
  }

  /** The new row of a child without a CSS id whose row class is a single attribute. */
  lemma NewRowOneClass(s: TableState, c: Child, rowClass: Event)
    ensures s.currentColumn == 1 && c.cssId.None? && RowStyleClass(s.styles.rowClasses, s.currentRow) == Some([rowClass]) ==>
              NewRowStage(s, c) == Written(s.(currentRow := s.currentRow + 1), [StartElement("tr"), rowClass], false)
  {
    if s.currentColumn == 1 && c.cssId.None? && RowStyleClass(s.styles.rowClasses, s.currentRow) == Some([rowClass]) {
      assert [StartElement("tr")] + IdAttribute(c.cssId, ROW_SUFFIX) + [rowClass] == [StartElement("tr"), rowClass];
    }
  }

  /**
   * The extra row of a labelled child without a CSS id in a zero-column
   * layout, as written and corrected, when each row class is a single attribute.
   */
  lemma ExtraRowOneClass(s: TableState, c: Child, asWritten: Event, corrected: Event)
    ensures c.labelString.Some? && c.cssId.None? && s.columns == 0
            && RowStyleClass(s.styles.rowClasses, s.currentRow) == Some([asWritten]) ==>
              ExtraRowStageAsWritten(s, c) == Written(s, [EndElement("tr"), StartElement("tr"), asWritten], false)
    ensures c.labelString.Some? && c.cssId.None? && s.columns == 0 && s.currentRow >= 1
            && RowStyleClass(s.styles.rowClasses, s.currentRow - 1) == Some([corrected]) ==>
              ExtraRowStage(s, c) == Written(s, [EndElement("tr"), StartElement("tr"), corrected], false)
  {
    if c.cssId.None? {
      assert [EndElement("tr"), StartElement("tr")] + IdAttribute(c.cssId, ROW_SUFFIX + "2") + [asWritten]
             == [EndElement("tr"), StartElement("tr"), asWritten];
      assert [EndElement("tr"), StartElement("tr")] + IdAttribute(c.cssId, ROW_SUFFIX + "2") + [corrected]
             == [EndElement("tr"), StartElement("tr"), corrected];
    }
  }

  /** The classes of rows 0 and 1 under the row classes "odd,even". */
  lemma OddEvenClasses()
    ensures RowStyleClass(Some(["odd", "even"]), 0) == Some([Attribute("class", "odd")])
    ensures RowStyleClass(Some(["odd", "even"]), 1) == Some([Attribute("class", "even")])
  {
    assert TrimStart("odd") == "odd";
    assert TrimEnd("odd") == "odd";
    assert TrimStart("even") == "even";
    assert TrimEnd("even") == "even";
  }

  /**
   * As written, a nested metawidget that is not LARGE does not start a row
   * of its own: in a two-column layout whose open row already holds a
   * child's three cells, it adds its own six, and the row is nine cells
   * wide where the header is six. The corrected layout closes the open row
   * first and gives the nested metawidget a full row of six.
   */
  lemma SpanningChildOverflowsRowAsWritten()
    ensures var s := TableState(0, 2, 0, None, NO_STYLES);
            var first := Child(1, InputComponent, true, Some(Metadata(None, false, false, false)), Some("Name"), None);
            var nested := Child(2, MetawidgetComponent(None), true, Some(Metadata(None, false, false, false)), Some("Address"), None);
            var w1 := LayoutChildAsWritten(s, false, first);
            var w2 := LayoutChildAsWritten(w1.state, false, nested);
            var v1 := LayoutChild(s, false, first);
            var v2 := LayoutChild(v1.state, false, nested);
            Scan(EMPTY_TABLE, w1.events + w2.events) == Table([9], false, 0)
            && FullWidthColspan(2) == 6
            && Scan(EMPTY_TABLE, v1.events + v2.events) == Table([3, 6], false, 0)
  {
    var s := TableState(0, 2, 0, None, NO_STYLES);
    var first := Child(1, InputComponent, true, Some(Metadata(None, false, false, false)), Some("Name"), None);
    var nested := Child(2, MetawidgetComponent(None), true, Some(Metadata(None, false, false, false)), Some("Address"), None);
    // the first child is laid out the same either way
    var w1 := LayoutChildAsWritten(s, false, first);
    var v1 := LayoutChild(s, false, first);
    var t1 := Table([], true, 3);
    ChildScan(EMPTY_TABLE, s, first);
    // as written: the nested metawidget joins the open row
    var w2 := LayoutChildAsWritten(v1.state, false, nested);
    JoiningChildScan(t1, v1.state, nested);
    ScanAppend(EMPTY_TABLE, w1.events, w2.events);
    // corrected: the open row is closed first
    var v2 := LayoutChild(v1.state, false, nested);
    BreakingChildScan(t1, v1.state, nested);
    ScanAppend(EMPTY_TABLE, v1.events, v2.events);
  }

  /** The first child of a fresh row: its three cells are open in a new row. */
  lemma ChildScan(t: Table, s: TableState, c: Child)
    requires s == TableState(0, 2, 0, None, NO_STYLES) && t == EMPTY_TABLE
    requires c == Child(1, InputComponent, true, Some(Metadata(None, false, false, false)), Some("Name"), None)
    ensures Scan(t, LayoutChild(s, false, c).events) == Table([], true, 3)
    ensures LayoutChild(s, false, c).state == TableState(1, 2, 1, None, NO_STYLES)
    ensures LayoutChildAsWritten(s, false, c) == LayoutChild(s, false, c)
  {
    LayoutChildAsWrittenParts(s, false, c);
    LayoutChildParts(s, false, c);
    ChildScanBefore(t, s, c);
    var before := BeforeChild(s.(currentColumn := 1), c);
    ScanAcrossRender(t, before.events, c.id, AfterChild(before.state, false, c).events);
    ScanAfterChild(Table([], true, 2), before.state, false, c);
  }

  lemma ChildScanBefore(t: Table, s: TableState, c: Child)
    requires s == TableState(0, 2, 0, None, NO_STYLES) && t == EMPTY_TABLE
    requires c == Child(1, InputComponent, true, Some(Metadata(None, false, false, false)), Some("Name"), None)
    ensures var before := BeforeChild(s.(currentColumn := 1), c);
            !before.thrown && before.state == TableState(1, 2, 1, None, NO_STYLES)
            && Scan(t, before.events) == Table([], true, 2)
            && BeforeChildAsWritten(s.(currentColumn := 1), c) == before
  {
    var s0 := s.(currentColumn := 1);
    var w3 := NewRowStage(s0, c);
    assert w3.events == [StartElement("tr")];
    var t3 := Table([], true, 0);
    ScanOne(t, StartElement("tr"));
    var w6 := ComponentCellStage(w3.state, c);
    assert BeforeChild(s0, c).events == [StartElement("tr")] + LabelEvents(s.styles, c) + w6.events;
    ScanAppend(t, [StartElement("tr")] + LabelEvents(s.styles, c), w6.events);
    ScanAppend(t, [StartElement("tr")], LabelEvents(s.styles, c));
    ScanLabel(t3, s.styles, c);
    ScanComponentCell(t3.(width := 1), w3.state, c);
  }

  /** As written, the nested metawidget's cells are appended to the open row. */
  lemma JoiningChildScan(t: Table, s: TableState, c: Child)
    requires s == TableState(1, 2, 1, None, NO_STYLES) && t == Table([], true, 3)
    requires c == Child(2, MetawidgetComponent(None), true, Some(Metadata(None, false, false, false)), Some("Address"), None)
    ensures Scan(t, LayoutChildAsWritten(s, false, c).events) == Table([9], false, 0)
  {
    LayoutChildAsWrittenParts(s, false, c);
    JoiningChildScanBefore(t, s, c);
    var before := BeforeChildAsWritten(s.(currentColumn := 2), c);
    ScanAcrossRender(t, before.events, c.id, AfterChild(before.state, false, c).events);
    ScanAfterChild(Table([], true, 8), before.state, false, c);
  }

  lemma JoiningChildScanBefore(t: Table, s: TableState, c: Child)
    requires s == TableState(1, 2, 1, None, NO_STYLES) && t == Table([], true, 3)
    requires c == Child(2, MetawidgetComponent(None), true, Some(Metadata(None, false, false, false)), Some("Address"), None)
    ensures var before := BeforeChildAsWritten(s.(currentColumn := 2), c);
            !before.thrown && before.state.currentColumn >= before.state.columns
            && Scan(t, before.events) == Table([], true, 8)
  {
    var s0 := s.(currentColumn := 2);
    var w6 := ComponentCellStage(s0, c);
    assert BeforeChildAsWritten(s0, c).events == LabelEvents(s.styles, c) + w6.events;
    ScanAppend(t, LabelEvents(s.styles, c), w6.events);
    ScanLabel(t, s.styles, c);
    ScanComponentCell(t.(width := 4), s0, c);
    assert ComponentColspan(c, 2) == 4;
  }

  /** Corrected, the open row is closed and the nested metawidget fills a row of its own. */
  lemma BreakingChildScan(t: Table, s: TableState, c: Child)
    requires s == TableState(1, 2, 1, None, NO_STYLES) && t == Table([], true, 3)
    requires c == Child(2, MetawidgetComponent(None), true, Some(Metadata(None, false, false, false)), Some("Address"), None)
    ensures Scan(t, LayoutChild(s, false, c).events) == Table([3, 6], false, 0)
  {
    LayoutChildParts(s, false, c);
    BreakingChildScanBefore(t, s, c);
    var before := BeforeChild(s.(currentColumn := 2), c);
    ScanAcrossRender(t, before.events, c.id, AfterChild(before.state, false, c).events);
    ScanAfterChild(Table([3], true, 5), before.state, false, c);
  }

  lemma BreakingChildScanBefore(t: Table, s: TableState, c: Child)
    requires s == TableState(1, 2, 1, None, NO_STYLES) && t == Table([], true, 3)
    requires c == Child(2, MetawidgetComponent(None), true, Some(Metadata(None, false, false, false)), Some("Address"), None)
    ensures var before := BeforeChild(s.(currentColumn := 2), c);
            !before.thrown && before.state.currentColumn >= before.state.columns
            && Scan(t, before.events) == Table([3], true, 5)
  {
    var s0 := s.(currentColumn := 2);
    var w2 := WholeRowStage(s0, c);
    var w3 := NewRowStage(w2.state, c);
    assert w3.events == [StartElement("tr")];
    var w6 := ComponentCellStage(w3.state, c);
    assert BeforeChild(s0, c).events == [EndElement("tr")] + [StartElement("tr")] + LabelEvents(s.styles, c) + w6.events;
    ScanAppend(t, [EndElement("tr")] + [StartElement("tr")] + LabelEvents(s.styles, c), w6.events);
    ScanAppend(t, [EndElement("tr")] + [StartElement("tr")], LabelEvents(s.styles, c));
    ScanAppend(t, [EndElement("tr")], [StartElement("tr")]);
    ScanOne(t, EndElement("tr"));
    ScanOne(Table([3], false, 0), StartElement("tr"));
    var t3 := Table([3], true, 0);
    assert Scan(t, [EndElement("tr")] + [StartElement("tr")]) == t3;
    ScanLabel(t3, s.styles, c);
    ScanComponentCell(t3.(width := 1), w3.state, c);
    assert ComponentColspan(c, 2) == 4;
  }

  /** layoutAfterChild adds the required cell to the open row and closes it when the row is full. */
  lemma ScanAfterChild(t: Table, s: TableState, metawidgetReadOnly: bool, c: Child)
    ensures var t1 := t.(width := t.width + Count(HasRequiredCell(c)));
            Scan(t, AfterChild(s, metawidgetReadOnly, c).events)
            == if s.currentColumn >= s.columns then Step(t1, EndElement("tr")) else t1
  {
    var cellEnds := [EndElement("td")] + RequiredCell(s, metawidgetReadOnly, c);
    ScanCellEnds(t, s, metawidgetReadOnly, c);
    if s.currentColumn >= s.columns {
      assert AfterChild(s, metawidgetReadOnly, c).events == cellEnds + [EndElement("tr")];
      ScanAppend(t, cellEnds, [EndElement("tr")]);
      ScanOne(t.(width := t.width + Count(HasRequiredCell(c))), EndElement("tr"));
    } else {
      assert AfterChild(s, metawidgetReadOnly, c).events == cellEnds;
    }
  }
}
