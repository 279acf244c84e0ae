/**
 * The table as a browser reads it back from what HtmlTableLayoutRenderer
 * writes: the width of every row (cells counted with their colspan), and
 * the components rendered into it. The theorems say that, with one or more
 * columns, no row is wider than the header (3 * columns cells), and that
 * the visible children are rendered exactly once each, in order.
 */
module HtmlTableRows {
  import opened JavaLang
  import opened HtmlTableSpec

  // ---------------------------------------------------------------------------
  // Reading rows back
  // ---------------------------------------------------------------------------

  /** The rows closed so far, and the width of the open row if there is one. */
  datatype Table = Table(rows: seq<int>, open: bool, width: int)

  const EMPTY_TABLE: Table := Table([], false, 0)

  /** The rows once the open row, if any, is closed. */
  function ClosedRows(t: Table): seq<int> {
    if t.open then t.rows + [t.width] else t.rows
  }

  /**
   * One event: a row start closes the open row and opens a new one, a row
   * end (or the end of the row group) closes it, a cell adds one column and
   * a colspan adds the columns beyond the first.
   */
  function Step(t: Table, e: Event): Table {
    match e
    case StartElement(name) =>
      if name == "tr" then Table(ClosedRows(t), true, 0)
      else if name == "td" || name == "th" then t.(width := t.width + 1)
      else t
    case EndElement(name) => if EndsRow(name) then Table(ClosedRows(t), false, 0) else t
    case Attribute(name, value) => if name == "colspan" then t.(width := t.width + ParseDigits(value) - 1) else t
    case _ => t
  }

  function Scan(t: Table, es: seq<Event>): Table
    decreases |es|
  {
    if es == [] then t else Scan(Step(t, es[0]), es[1..])
  }

  lemma {:induction false} ScanAppend(t: Table, a: seq<Event>, b: seq<Event>)
    ensures Scan(t, a + b) == Scan(Scan(t, a), b)
    decreases |a|
  {
    if a == [] {
      assert a + b == b;
    } else {
      assert (a + b)[1..] == a[1..] + b;
      ScanAppend(Step(t, a[0]), a[1..], b);
    }
  }

  lemma AllNeutralAppend(a: seq<Event>, b: seq<Event>)
    ensures AllNeutral(a) && AllNeutral(b) ==> AllNeutral(a + b)
  {
    if AllNeutral(a) && AllNeutral(b) {
      forall k | 0 <= k < |a + b| ensures Neutral((a + b)[k]) {
        if k < |a| { assert (a + b)[k] == a[k]; } else { assert (a + b)[k] == b[k - |a|]; }
      }
    }
  }

  lemma {:induction false} ScanNeutral(t: Table, es: seq<Event>)
    ensures AllNeutral(es) ==> Scan(t, es) == t
    decreases |es|
  {
    if es != [] && AllNeutral(es) {
      assert Neutral(es[0]);
      assert AllNeutral(es[1..]) by {
        forall k | 0 <= k < |es[1..]| ensures Neutral(es[1..][k]) {
          assert es[1..][k] == es[k + 1];
        }
      }
      ScanNeutral(Step(t, es[0]), es[1..]);
    }
  }

  lemma ScanCons(t: Table, e: Event, rest: seq<Event>)
    ensures Scan(t, [e] + rest) == Scan(Step(t, e), rest)
  {
    assert ([e] + rest)[1..] == rest;
  }

  lemma ScanOne(t: Table, e: Event)
    ensures Scan(t, [e]) == Step(t, e)
  {
    assert [e][1..] == [];
  }

  /** Every closed row is at most `bound` wide, and so is the open one. */
  predicate Fits(t: Table, bound: int) {
    (forall k :: 0 <= k < |t.rows| ==> t.rows[k] <= bound) && (t.open ==> t.width <= bound)
  }

  /**
   * The shape of the table between two children of a layout with one or more
   * columns: a row is open exactly when the column count is not zero, and the
   * open row holds at most three cells per column counted.
   */
  predicate TableShape(t: Table, s: TableState) {
    s.columns >= 1 && 0 <= s.currentColumn < s.columns
    && (t.open <==> s.currentColumn >= 1)
    && (t.open ==> t.width <= LABEL_AND_COMPONENT_AND_REQUIRED * s.currentColumn)
    && Fits(t, LABEL_AND_COMPONENT_AND_REQUIRED * s.columns)
  }

  // ---------------------------------------------------------------------------
  // The width each piece of output adds
  // ---------------------------------------------------------------------------

  lemma ScanRowStart(t: Table, rest: seq<Event>)
    ensures AllNeutral(rest) ==> Scan(t, [StartElement("tr")] + rest) == Table(ClosedRows(t), true, 0)
  {
    ScanCons(t, StartElement("tr"), rest);
    ScanNeutral(Table(ClosedRows(t), true, 0), rest);
  }

  /** A section heading row is exactly as wide as the table. */
  lemma ScanSection(t: Table, styles: Styles, columns: int, section: string)
    requires columns >= 1 && Fits(t, LABEL_AND_COMPONENT_AND_REQUIRED * columns)
    ensures var t1 := Scan(t, SectionEvents(styles, columns, section));
            Fits(t1, LABEL_AND_COMPONENT_AND_REQUIRED * columns)
            && (section == "" ==> t1 == t) && (section != "" ==> !t1.open)
  {
    if section != "" {
      var middle := StyleAttribute(styles.sectionStyle)
                    + (if styles.sectionStyleClass.Some? then [Attribute("class", styles.sectionStyleClass.value)] else [])
                    + [SectionHeading(section)];
      AllNeutralAppend(StyleAttribute(styles.sectionStyle),
                       if styles.sectionStyleClass.Some? then [Attribute("class", styles.sectionStyleClass.value)] else []);
      AllNeutralAppend(StyleAttribute(styles.sectionStyle)
                       + (if styles.sectionStyleClass.Some? then [Attribute("class", styles.sectionStyleClass.value)] else []),
                       [SectionHeading(section)]);
      assert SectionEvents(styles, columns, section)
             == [StartElement("tr"), StartElement("th"), Attribute("colspan", NatToString(FullWidthColspan(columns)))]
                + middle + [EndElement("th"), EndElement("tr")];
      ScanFullRow(t, "th", FullWidthColspan(columns), middle);
      AppendFits(ClosedRows(t), FullWidthColspan(columns), LABEL_AND_COMPONENT_AND_REQUIRED * columns);
    }
  }

  /** Closing a row no wider than the bound keeps every closed row within it. */
  lemma AppendFits(rows: seq<int>, width: int, bound: int)
    ensures (forall k :: 0 <= k < |rows| ==> rows[k] <= bound) && width <= bound ==>
              Fits(Table(rows + [width], false, 0), bound)
  {
  }

  /**
   * A row made of one cell spanning `colspan` columns: whatever was open is
   * closed, and a row exactly `colspan` wide is added.
   */
  lemma ScanFullRow(t: Table, cell: string, colspan: nat, middle: seq<Event>)
    ensures (cell == "td" || cell == "th") && AllNeutral(middle) ==>
              Scan(t, [StartElement("tr"), StartElement(cell), Attribute("colspan", NatToString(colspan))]
                      + middle + [EndElement(cell), EndElement("tr")])
              == Table(ClosedRows(t) + [colspan], false, 0)
  {
    if (cell == "td" || cell == "th") && AllNeutral(middle) {
      var head := [StartElement("tr"), StartElement(cell), Attribute("colspan", NatToString(colspan))];
      ScanRowHead(t, cell, colspan);
      ScanAppend(t, head + middle, [EndElement(cell), EndElement("tr")]);
      ScanAppend(t, head, middle);
      ScanNeutral(Table(ClosedRows(t), true, colspan), middle);
      ScanCellRowEnd(Table(ClosedRows(t), true, colspan), cell);
    }
  }

  lemma ScanRowHead(t: Table, cell: string, colspan: nat)
    ensures (cell == "td" || cell == "th") ==>
              Scan(t, [StartElement("tr"), StartElement(cell), Attribute("colspan", NatToString(colspan))])
              == Table(ClosedRows(t), true, colspan)
  {
    var span := Attribute("colspan", NatToString(colspan));
    assert [StartElement("tr"), StartElement(cell), span] == [StartElement("tr")] + [StartElement(cell), span];
    assert [StartElement(cell), span] == [StartElement(cell)] + [span];
    ScanCons(t, StartElement("tr"), [StartElement(cell), span]);
    ScanCons(Table(ClosedRows(t), true, 0), StartElement(cell), [span]);
    ScanOne(Table(ClosedRows(t), true, 1), span);
    ParseDigitsOfNatToString(colspan);
  }

  lemma ScanCellRowEnd(t: Table, cell: string)
    ensures (cell == "td" || cell == "th") && t.open ==>
              Scan(t, [EndElement(cell), EndElement("tr")]) == Table(t.rows + [t.width], false, 0)
  {
    assert [EndElement(cell), EndElement("tr")] == [EndElement(cell)] + [EndElement("tr")];
    ScanCons(t, EndElement(cell), [EndElement("tr")]);
    ScanOne(Step(t, EndElement(cell)), EndElement("tr"));
  }

  /** The label cell adds one column when the label is written. */
  lemma ScanLabel(t: Table, styles: Styles, c: Child)
    ensures Scan(t, LabelEvents(styles, c)) == t.(width := t.width + Count(c.labelString.Some?))
  {
    if c.labelString.Some? {
      ScanCellThen(t, "th", IdAttribute(c.cssId, LABEL_CELL_SUFFIX), StyleAttribute(styles.labelStyle),
                   ColumnStyleClass(styles.columnClasses, 0), [LabelText(c.id), EndElement("th")]);
      ScanNeutral(t.(width := t.width + 1), [LabelText(c.id), EndElement("th")]);
    }
  }

  /** A cell start followed by attributes adds one column. */
  lemma ScanCellStart(t: Table, name: string, attrs: seq<Event>)
    ensures (name == "td" || name == "th") && AllNeutral(attrs) ==>
              Scan(t, [StartElement(name)] + attrs) == t.(width := t.width + 1)
  {
    ScanCons(t, StartElement(name), attrs);
    ScanNeutral(t.(width := t.width + 1), attrs);
  }

  /** A cell start and three pieces of attributes add one column to whatever follows them. */
  lemma ScanCellThen(t: Table, name: string, a: seq<Event>, b: seq<Event>, c: seq<Event>, rest: seq<Event>)
    ensures (name == "td" || name == "th") && AllNeutral(a) && AllNeutral(b) && AllNeutral(c) ==>
              Scan(t, [StartElement(name)] + a + b + c + rest) == Scan(t.(width := t.width + 1), rest)
  {
    ScanAppend(t, [StartElement(name)] + a + b + c, rest);
    AllNeutralAppend(a, b);
    AllNeutralAppend(a + b, c);
    assert [StartElement(name)] + a + b + c == [StartElement(name)] + (a + b + c);
    ScanCellStart(t, name, a + b + c);
  }

  /** A colspan attribute, written only when it is above one, widens the cell to it. */
  lemma ScanColspan(t: Table, colspan: int)
    ensures Scan(t, ColspanAttribute(colspan)) == t.(width := t.width + (if colspan > 1 then colspan - 1 else 0))
  {
    if colspan > 1 {
      ScanOne(t, Attribute("colspan", NatToString(colspan)));
      ParseDigitsOfNatToString(colspan);
    }
  }

  /** The component cell adds its colspan (at least one column). */
  lemma ScanComponentCell(t: Table, s: TableState, c: Child)
    ensures var colspan := ComponentColspan(c, s.columns);
            Scan(t, ComponentCellStage(s, c).events) == t.(width := t.width + (if colspan > 1 then colspan else 1))
  {
    ScanCellThen(t, "td", IdAttribute(c.cssId, COMPONENT_CELL_SUFFIX), StyleAttribute(s.styles.componentStyle),
                 ColumnStyleClass(s.styles.columnClasses, 1), ColspanAttribute(ComponentColspan(c, s.columns)));
    ScanColspan(t.(width := t.width + 1), ComponentColspan(c, s.columns));
  }

  /** The end of the component cell and the required cell, before the row may end. */
  lemma ScanCellEnds(t: Table, s: TableState, metawidgetReadOnly: bool, c: Child)
    ensures Scan(t, [EndElement("td")] + RequiredCell(s, metawidgetReadOnly, c))
            == t.(width := t.width + Count(HasRequiredCell(c)))
  {
    ScanCons(t, EndElement("td"), RequiredCell(s, metawidgetReadOnly, c));
    if HasRequiredCell(c) {
      ScanCellThen(t, "td", StyleAttribute(s.styles.requiredStyle), ColumnStyleClass(s.styles.columnClasses, 2),
                   RequiredEvents(metawidgetReadOnly, c), [EndElement("td")]);
      ScanOne(t.(width := t.width + 1), EndElement("td"));
    }
  }

  // ---------------------------------------------------------------------------
  // One child keeps the table's shape
  // ---------------------------------------------------------------------------

  /**
   * After the section, whole-row and new-row stages: either a fresh row was
   * opened, or the child joins the open row, which is then never a spanning
   * child's.
   */
  lemma RowStages(t: Table, s: TableState, c: Child)
    requires TableShape(t, s) && s.styles.rowClasses != Some([])
    ensures var k := s.currentColumn + 1;
            var w1 := SectionStage(s.(currentColumn := k), c);
            var w2 := WholeRowStage(w1.state, c);
            var w3 := NewRowStage(w2.state, c);
            var t3 := Scan(t, w1.events + w2.events + w3.events);
            !w3.thrown && Fits(t3, LABEL_AND_COMPONENT_AND_REQUIRED * s.columns) && t3.open
            && w3.state.styles == s.styles && w3.state.columns == s.columns
            && (StartsRow(w2.state) ==> t3.width == 0 && w3.state.currentColumn == 1)
            && (!StartsRow(w2.state) ==>
                  t3 == t && w3.state.currentColumn == k && k >= 2 && !SpansAllColumns(c)
                  && t.width <= LABEL_AND_COMPONENT_AND_REQUIRED * (k - 1))
  {
    var bound := LABEL_AND_COMPONENT_AND_REQUIRED * s.columns;
    var w1 := SectionStage(s.(currentColumn := s.currentColumn + 1), c);
    var w2 := WholeRowStage(w1.state, c);
    SectionStageScan(t, s.(currentColumn := s.currentColumn + 1), c);
    WholeRowStageScan(Scan(t, w1.events), w1.state, c);
    NewRowStageScan(Scan(Scan(t, w1.events), w2.events), w2.state, c);
    ScanAppend(t, w1.events, w2.events);
    ScanAppend(t, w1.events + w2.events, NewRowStage(w2.state, c).events);
  }

  /** The section stage keeps every row within the table's width. */
  lemma SectionStageScan(t: Table, s: TableState, c: Child)
    ensures var t1 := Scan(t, SectionStage(s, c).events);
            s.columns >= 1 && Fits(t, LABEL_AND_COMPONENT_AND_REQUIRED * s.columns) ==>
              Fits(t1, LABEL_AND_COMPONENT_AND_REQUIRED * s.columns) && (!ChangesSection(s, c) ==> t1 == t)
  {
    if ChangesSection(s, c) && s.columns >= 1 && Fits(t, LABEL_AND_COMPONENT_AND_REQUIRED * s.columns) {
      ScanSection(t, s.styles, s.columns, c.metadata.value.section.value);
    }
  }

  /** The whole-row stage closes the open row, which fits the table, before a spanning child. */
  lemma WholeRowStageScan(t: Table, s: TableState, c: Child)
    ensures var t2 := Scan(t, WholeRowStage(s, c).events);
            Fits(t, LABEL_AND_COMPONENT_AND_REQUIRED * s.columns) ==>
              Fits(t2, LABEL_AND_COMPONENT_AND_REQUIRED * s.columns)
              && (BreaksRow(s, c) ==> !t2.open) && (!BreaksRow(s, c) ==> t2 == t)
  {
    if BreaksRow(s, c) {
      ScanOne(t, EndElement("tr"));
      AppendFits(t.rows, t.width, LABEL_AND_COMPONENT_AND_REQUIRED * s.columns);
    }
  }

  /** The new-row stage opens an empty row when the child starts one. */
  lemma NewRowStageScan(t: Table, s: TableState, c: Child)
    ensures var w3 := NewRowStage(s, c);
            var t3 := Scan(t, w3.events);
            s.styles.rowClasses != Some([]) ==>
              !w3.thrown && (StartsRow(s) ==> t3 == Table(ClosedRows(t), true, 0)) && (!StartsRow(s) ==> t3 == t)
  {
    if StartsRow(s) && s.styles.rowClasses != Some([]) {
      var rowClass := RowStyleClass(s.styles.rowClasses, s.currentRow).value;
      AllNeutralAppend(IdAttribute(c.cssId, ROW_SUFFIX), rowClass);
      assert NewRowStage(s, c).events == [StartElement("tr")] + (IdAttribute(c.cssId, ROW_SUFFIX) + rowClass);
      ScanRowStart(t, IdAttribute(c.cssId, ROW_SUFFIX) + rowClass);
    }
  }

  /** Closing the open row keeps every row within a bound it already fits. */
  lemma ClosedRowsFit(t: Table, bound: int)
    ensures Fits(t, bound) && bound >= 0 ==>
              Fits(Table(ClosedRows(t), false, 0), bound) && Fits(Table(ClosedRows(t), true, 0), bound)
  {
    if t.open {
      AppendFits(t.rows, t.width, bound);
    }
  }

  /** The cells of a child fit the row: after its component cell, the required cell still fits. */
  lemma BeforeChildShape(t: Table, s: TableState, c: Child)
    requires TableShape(t, s) && s.styles.rowClasses != Some([])
    ensures var w := BeforeChild(s.(currentColumn := s.currentColumn + 1), c);
            var t1 := Scan(t, w.events);
            !w.thrown && w.state.styles == s.styles && w.state.columns == s.columns
            && 1 <= w.state.currentColumn <= s.columns
            && t1.open && Fits(t1, LABEL_AND_COMPONENT_AND_REQUIRED * s.columns)
            && t1.width + Count(HasRequiredCell(c)) <= LABEL_AND_COMPONENT_AND_REQUIRED * w.state.currentColumn
  {
    var k := s.currentColumn + 1;
    var s0 := s.(currentColumn := k);
    var w1 := SectionStage(s0, c);
    var w2 := WholeRowStage(w1.state, c);
    var w3 := NewRowStage(w2.state, c);
    RowStages(t, s, c);
    var t3 := Scan(t, w1.events + w2.events + w3.events);
    var labelEvents := LabelEvents(s.styles, c);
    var w5 := ExtraRowStage(w3.state, c);
    assert w5.events == [];
    var w6 := ComponentCellStage(w5.state, c);
    var w := BeforeChild(s0, c);
    assert w.events == (w1.events + w2.events + w3.events) + labelEvents + w6.events;
    ScanAppend(t, (w1.events + w2.events + w3.events) + labelEvents, w6.events);
    ScanAppend(t, w1.events + w2.events + w3.events, labelEvents);
    ScanLabel(t3, s.styles, c);
    var t4 := t3.(width := t3.width + Count(c.labelString.Some?));
    ScanComponentCell(t4, w5.state, c);
    var colspan := ComponentColspan(c, s.columns);
    assert colspan >= 1;
  }

  /** layoutAfterChild closes the row when the column count reaches the number of columns. */
  lemma AfterChildShape(t: Table, s: TableState, metawidgetReadOnly: bool, c: Child)
    requires s.columns >= 1 && 1 <= s.currentColumn <= s.columns
    requires t.open && Fits(t, LABEL_AND_COMPONENT_AND_REQUIRED * s.columns)
    requires t.width + Count(HasRequiredCell(c)) <= LABEL_AND_COMPONENT_AND_REQUIRED * s.currentColumn
    ensures var w := AfterChild(s, metawidgetReadOnly, c);
            TableShape(Scan(t, w.events), w.state)
  {
    var w := AfterChild(s, metawidgetReadOnly, c);
    var cells := [EndElement("td")] + RequiredCell(s, metawidgetReadOnly, c);
    var ending := if s.currentColumn >= s.columns then [EndElement("tr")] else [];
    assert w.events == cells + ending;
    ScanAppend(t, cells, ending);
    ScanCellEnds(t, s, metawidgetReadOnly, c);
    if s.currentColumn >= s.columns {
      ScanOne(t.(width := t.width + Count(HasRequiredCell(c))), EndElement("tr"));
    }
  }

  /** With one or more columns, laying out a child keeps every row within the table's width. */
  lemma LayoutChildKeepsShape(t: Table, s: TableState, metawidgetReadOnly: bool, c: Child)
    requires TableShape(t, s) && s.styles.rowClasses != Some([])
    ensures var w := LayoutChild(s, metawidgetReadOnly, c);
            !w.thrown && TableShape(Scan(t, w.events), w.state)
  {
    var before := BeforeChild(s.(currentColumn := s.currentColumn + 1), c);
    BeforeChildShape(t, s, c);
    var after := AfterChild(before.state, metawidgetReadOnly, c);
    AfterChildShape(Scan(t, before.events), before.state, metawidgetReadOnly, c);
    ScanAcrossRender(t, before.events, c.id, after.events);
    LayoutChildParts(s, metawidgetReadOnly, c);
  }

  /** A rendered component adds no cell of its own. */
  lemma ScanAcrossRender(t: Table, a: seq<Event>, component: nat, b: seq<Event>)
    ensures Scan(t, a + [Render(component)] + b) == Scan(Scan(t, a), b)
  {
    ScanAppend(t, a + [Render(component)], b);
    ScanAppend(t, a, [Render(component)]);
    ScanOne(Scan(t, a), Render(component));
  }

  /** The shape is kept across all the children. */
  lemma {:induction false} LayoutChildrenKeepsShape(t: Table, s: TableState, metawidgetReadOnly: bool, children: seq<Child>)
    requires TableShape(t, s) && s.styles.rowClasses != Some([])
    ensures var w := LayoutChildren(s, metawidgetReadOnly, children);
            !w.thrown && TableShape(Scan(t, w.events), w.state)
    decreases |children|
  {
    if children != [] {
      var prefix := children[..|children| - 1];
      var c := children[|children| - 1];
      LayoutChildrenKeepsShape(t, s, metawidgetReadOnly, prefix);
      var w := LayoutChildren(s, metawidgetReadOnly, prefix);
      if Visible(c) {
        LayoutChildKeepsShape(Scan(t, w.events), w.state, metawidgetReadOnly, c);
        ScanAppend(t, w.events, LayoutChild(w.state, metawidgetReadOnly, c).events);
      }
    }
  }
}
