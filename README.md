# Metawidget layout, widget choice and configuration, in Dafny

Metawidget builds user interfaces from the properties of an object. This project models four pieces of it and proves properties about them.

- **HtmlTableLayoutRenderer.** It is the JavaServer Faces renderer that arranges the children of a UIMetawidget in an HTML table. Each child gets a label cell, a component cell and a "required" cell, and `columns` such triples share a row.
  - `html_table_spec.dfy` (module `HtmlTableSpec`) states what the renderer writes. These are pure functions of the layout State and the child being laid out. The ResponseWriter is a sequence of events: start and end element, attribute, text, and a component rendering itself.
  - `html_table_layout.dfy` (module `HtmlTableLayout`) is the renderer itself, with both Findings below corrected. It is a class whose State object and writer are changed step by step. Each of its methods is proved to produce exactly the state and events of the matching function.
  - `html_table_rows.dfy` (module `HtmlTableRows`) measures the table those events describe. It keeps the list of row widths, in cells, and whether a row is open.
  - `html_table_properties.dfy` (module `HtmlTableProperties`) proves what the layout promises:
    - every visible child is rendered once, in order;
    - row and column classes;
    - rows per child;
    - the table never gets wider than its header.
- **ReadOnlyWidgetBuilder** (JavaServer Faces). Module `FacesReadOnlyWidgetBuilder` models the ordered decision chain that picks a read-only component for a property, or declines.
- **AndroidMetawidget.**
  - Module `AndroidWidgetChoice` holds its pure decision tables: the label of a property, and the View built for it in read-only and in editable mode.
  - Module `AndroidMetawidgetState` holds the stateful part, as a class:
    - the parameters read from the XML element;
    - the setters and the dirty flag that gates rebuilding;
    - the existing child views, each reused at most once;
    - the calls made on the Layout;
    - the set-up of a nested metawidget.
- **BeanUtilsBindingProcessorConfig.** Module `BeanUtilsConfig` models a configuration object with a three-state property style: never set, set to null, or set to a style. It has a lazily created shared default, and `equals` and `hashCode` agree.
- **Shared modules.** Module `JavaLang` models the Java library behaviour the others rely on:
  - `String.trim`;
  - `String.split(",")`, which drops trailing empty strings;
  - `Boolean.parseBoolean`;
  - `String.valueOf` of a count;
  - string concatenation of a possibly null value;
  - 32-bit `int` arithmetic.

  Module `ClassKinds` names the kinds of Java class the widget tables test for.

Helpers the source calls but does not define are parameters of the functions that use them:
- `StringUtils.uncamelCase`;
- `CollectionUtils.fromString`;
- the label string of a child;
- the class a type name resolves to.

## Model

| member | source | states |
|---|---|---|
| HtmlTableSpec.BeginState | src/java/org/metawidget/faces/renderkit/html/HtmlTableLayoutRenderer.java:126-176 | the State after encodeBegin: columns is the parsed parameter or the default 1; row and column classes are present exactly when their parameter is, as its comma-split pieces; label, component, required, section style and section class are the parameters; the counters are zero and no section is open |
| HtmlTableSpec.Begin | src/java/org/metawidget/faces/renderkit/html/HtmlTableLayoutRenderer.java:104-231 | encodeBegin ends in an exception exactly when `columns` is negative; its State is BeginState of the parameters |
| HtmlTableSpec.FullWidthColspan | src/java/org/metawidget/faces/renderkit/html/HtmlTableLayoutRenderer.java:186-192 | header, footer and section cells span max(2, 3 * columns): at least 2, and at least three cells per column |
| HtmlTableSpec.HiddenChildren | src/java/org/metawidget/faces/renderkit/html/HtmlTableLayoutRenderer.java:237-249 | writes nothing that opens or closes a row or cell, and at most one event per child; HtmlTableProperties.HiddenChildrenRendersHiddenInputs states which children it renders |
| HtmlTableSpec.IdAttribute | src/java/org/metawidget/faces/renderkit/html/HtmlTableLayoutRenderer.java:376-377 | an id attribute is written exactly when the child has a CSS id |
| HtmlTableSpec.StyleAttribute | src/java/org/metawidget/faces/renderkit/html/HtmlTableLayoutRenderer.java:410-411 | a style attribute is written exactly when the style is set |
| HtmlTableSpec.ColumnStyleClass | src/java/org/metawidget/faces/renderkit/html/HtmlTableLayoutRenderer.java:619-641 | column classes do not repeat: no class for an index past the list or an empty entry, else the entry trimmed |
| HtmlTableSpec.RowStyleClass | src/java/org/metawidget/faces/renderkit/html/HtmlTableLayoutRenderer.java:643-657 | with no row classes nothing is written; an empty list is the exception of `% 0`; otherwise the class written is the entry at the row number modulo the list length, trimmed, and nothing is written exactly when that entry is empty |
| HtmlTableSpec.RemainderIsModulo | src/java/org/metawidget/faces/renderkit/html/HtmlTableLayoutRenderer.java:651 | the remainder the model computes is the row number modulo the number of row classes |
| HtmlTableSpec.SectionEvents | src/java/org/metawidget/faces/renderkit/html/HtmlTableLayoutRenderer.java:492-534 | a blank section name writes nothing; any other writes a heading row; neither renders a component |
| HtmlTableSpec.SectionStage | src/java/org/metawidget/faces/renderkit/html/HtmlTableLayoutRenderer.java:346-356 | a section that differs from the current one becomes current and sets the column count to 1; otherwise nothing changes and nothing is written |
| HtmlTableSpec.WholeRowStage | src/java/org/metawidget/faces/renderkit/html/HtmlTableLayoutRenderer.java:357-365 | a child that will span all columns ends the open row first and restarts the column count at 1 (corrected, see Findings) |
| HtmlTableSpec.WholeRowStageAsWritten | src/java/org/metawidget/faces/renderkit/html/HtmlTableLayoutRenderer.java:357-365 | as written: only a child marked LARGE ends the open row (the metawidget being laid out is never a UIData) |
| HtmlTableSpec.NewRowStage | src/java/org/metawidget/faces/renderkit/html/HtmlTableLayoutRenderer.java:368-381 | a row starts exactly when the column count is 1 or past `columns`; it then becomes 1 and the row number rises by one; the only exception is an empty row-class list |
| HtmlTableSpec.LabelEvents | src/java/org/metawidget/faces/renderkit/html/HtmlTableLayoutRenderer.java:458-490 | a label cell is written exactly when the label string is not null; it renders no component |
| HtmlTableSpec.ExtraRowStage | src/java/org/metawidget/faces/renderkit/html/HtmlTableLayoutRenderer.java:387-399 | a labelled child of a zero-column layout gets an extra row with the class of the row just started; the state is unchanged (corrected, see Findings) |
| HtmlTableSpec.ExtraRowStageAsWritten | src/java/org/metawidget/faces/renderkit/html/HtmlTableLayoutRenderer.java:387-399 | as written: the extra row takes the class of the row number after the increment; the state is unchanged |
| HtmlTableSpec.ComponentColspan | src/java/org/metawidget/faces/renderkit/html/HtmlTableLayoutRenderer.java:417-451 | a normal child's component cell spans 1, or 2 without a label, and its label, component and required cells add up to at most 3; for a child spanning all columns they add up to 3 * columns, one fewer for a child without metadata that is not a nested table |
| HtmlTableSpec.ComponentCellStage | src/java/org/metawidget/faces/renderkit/html/HtmlTableLayoutRenderer.java:401-451 | the component cell never throws; a spanning child moves the column count to `columns`; nothing is rendered |
| HtmlTableSpec.ColspanAttribute | src/java/org/metawidget/faces/renderkit/html/HtmlTableLayoutRenderer.java:450-451 | a colspan attribute is written exactly when colspan > 1, holding its decimal value, and it renders no component |
| HtmlTableSpec.BeforeChild | src/java/org/metawidget/faces/renderkit/html/HtmlTableLayoutRenderer.java:329-452 | layoutBeforeChild keeps the styles and `columns`, starts at most one row, and throws only for an empty row-class list |
| HtmlTableSpec.BeforeChildAsWritten | src/java/org/metawidget/faces/renderkit/html/HtmlTableLayoutRenderer.java:329-452 | as written (with WholeRowStageAsWritten), layoutBeforeChild keeps the styles and `columns`, advances the row number by at most one, and does not throw unless the row-class list is empty |
| HtmlTableSpec.RequiredEvents | src/java/org/metawidget/faces/renderkit/html/HtmlTableLayoutRenderer.java:579-607 | "*" exactly for a REQUIRED, not READ_ONLY child of an editable metawidget that is an input or a stub; an empty div otherwise |
| HtmlTableSpec.RequiredCell | src/java/org/metawidget/faces/renderkit/html/HtmlTableLayoutRenderer.java:549-568 | the required cell is left out exactly for nested table metawidgets and children without metadata |
| HtmlTableSpec.AfterChild | src/java/org/metawidget/faces/renderkit/html/HtmlTableLayoutRenderer.java:536-577 | layoutAfterChild never throws and resets the column count to 0 exactly when it has reached `columns`, closing the row |
| HtmlTableSpec.LayoutChild | src/java/org/metawidget/faces/renderkit/html/HtmlTableLayoutRenderer.java:303-312 | one visible child keeps the styles and `columns`, starts at most one row, leaves the column count non-negative, and throws only for an empty row-class list |
| HtmlTableSpec.LayoutChildAsWritten | src/java/org/metawidget/faces/renderkit/html/HtmlTableLayoutRenderer.java:303-312 | as written, one child keeps the styles and `columns`, advances the row number by at most one, leaves the column non-negative, and does not throw unless the row-class list is empty |
| HtmlTableSpec.LayoutChildren | src/java/org/metawidget/faces/renderkit/html/HtmlTableLayoutRenderer.java:271-313 | the loop over the children keeps the styles and `columns`, never lowers the row number, and throws only for an empty row-class list |
| HtmlTableSpec.LayoutChildrenAsWritten | src/java/org/metawidget/faces/renderkit/html/HtmlTableLayoutRenderer.java:271-313 | as written, the children keep the styles and `columns`, never lower the row number or leave a negative column, and do not throw unless the row-class list is empty |
| HtmlTableSpec.ChildrenStart | src/java/org/metawidget/faces/renderkit/html/HtmlTableLayoutRenderer.java:267-269 | encodeChildren resets the column, row and section and keeps `columns` and the styles |
| HtmlTableLayout.TableLayoutRenderer.GetState | src/java/org/metawidget/faces/renderkit/html/HtmlTableLayoutRenderer.java:663-674 | the State is created on first use and the same object is returned after that |
| HtmlTableLayout.TableLayoutRenderer.LayoutHiddenChildren | src/java/org/metawidget/faces/renderkit/html/HtmlTableLayoutRenderer.java:237-249 | writes exactly HiddenChildren of the children, after what was already written |
| HtmlTableLayout.TableLayoutRenderer.StartTable | src/java/org/metawidget/faces/renderkit/html/HtmlTableLayoutRenderer.java:117-122 | writes the table element, its id and its style and class |
| HtmlTableLayout.TableLayoutRenderer.ReadParameters | src/java/org/metawidget/faces/renderkit/html/HtmlTableLayoutRenderer.java:126-176 | the State read from the parameters is BeginState; a negative `columns` is reported as the exception |
| HtmlTableLayout.TableLayoutRenderer.LayoutFacet | src/java/org/metawidget/faces/renderkit/html/HtmlTableLayoutRenderer.java:180-228 | a present facet becomes a row with one cell spanning FullWidthColspan that renders it; an absent one writes nothing |
| HtmlTableLayout.TableLayoutRenderer.LayoutFacets | src/java/org/metawidget/faces/renderkit/html/HtmlTableLayoutRenderer.java:178-230 | writes the header, then the footer (before the body), then the start of the body |
| HtmlTableLayout.TableLayoutRenderer.BeginTable | src/java/org/metawidget/faces/renderkit/html/HtmlTableLayoutRenderer.java:111-231 | the State and events of encodeBegin are those of Begin, and nothing is written after the exception |
| HtmlTableLayout.TableLayoutRenderer.EncodeBegin | src/java/org/metawidget/faces/renderkit/html/HtmlTableLayoutRenderer.java:104-231 | encodeBegin discards the old State, creates a fresh one and agrees with Begin |
| HtmlTableLayout.TableLayoutRenderer.EncodeChildren | src/java/org/metawidget/faces/renderkit/html/HtmlTableLayoutRenderer.java:251-314 | encodeChildren resets the counters and then agrees with LayoutChildren, on the existing State or a new one |
| HtmlTableLayout.TableLayoutRenderer.LayoutChildrenOf | src/java/org/metawidget/faces/renderkit/html/HtmlTableLayoutRenderer.java:271-313 | the loop's State, events and exception are those of LayoutChildren; an exception ends the loop |
| HtmlTableLayout.StubHasRenderedChild | src/java/org/metawidget/faces/renderkit/html/HtmlTableLayoutRenderer.java:275-290 | a stub counts as visible exactly when one of its children is rendered |
| HtmlTableLayout.IsVisible | src/java/org/metawidget/faces/renderkit/html/HtmlTableLayoutRenderer.java:275-299 | the loop's skip tests agree with Visible |
| HtmlTableLayout.TableLayoutRenderer.EncodeChild | src/java/org/metawidget/faces/renderkit/html/HtmlTableLayoutRenderer.java:303-312 | one iteration for a visible child agrees with LayoutChild |
| HtmlTableLayout.TableLayoutRenderer.EncodeEnd | src/java/org/metawidget/faces/renderkit/html/HtmlTableLayoutRenderer.java:316-323 | closes the body and the table |
| HtmlTableLayout.TableLayoutRenderer.LayoutBeforeChild | src/java/org/metawidget/faces/renderkit/html/HtmlTableLayoutRenderer.java:329-452 | agrees with BeforeChild |
| HtmlTableLayout.TableLayoutRenderer.StartSection | src/java/org/metawidget/faces/renderkit/html/HtmlTableLayoutRenderer.java:346-356 | agrees with SectionStage |
| HtmlTableLayout.TableLayoutRenderer.EndRowBeforeSpanningChild | src/java/org/metawidget/faces/renderkit/html/HtmlTableLayoutRenderer.java:357-365 | agrees with the corrected WholeRowStage |
| HtmlTableLayout.TableLayoutRenderer.StartRow | src/java/org/metawidget/faces/renderkit/html/HtmlTableLayoutRenderer.java:368-381 | agrees with NewRowStage |
| HtmlTableLayout.TableLayoutRenderer.OpenRow | src/java/org/metawidget/faces/renderkit/html/HtmlTableLayoutRenderer.java:374-379 | writes a tr with its id and row class; throws exactly when the row-class list is empty, after the tr and id |
| HtmlTableLayout.TableLayoutRenderer.LayoutExtraRow | src/java/org/metawidget/faces/renderkit/html/HtmlTableLayoutRenderer.java:387-399 | agrees with the corrected ExtraRowStage |
| HtmlTableLayout.TableLayoutRenderer.LayoutComponentCell | src/java/org/metawidget/faces/renderkit/html/HtmlTableLayoutRenderer.java:401-451 | agrees with ComponentCellStage |
| HtmlTableLayout.TableLayoutRenderer.LayoutLabel | src/java/org/metawidget/faces/renderkit/html/HtmlTableLayoutRenderer.java:458-490 | returns whether a label was written (the label string is not null) and writes LabelEvents |
| HtmlTableLayout.TableLayoutRenderer.LayoutSection | src/java/org/metawidget/faces/renderkit/html/HtmlTableLayoutRenderer.java:492-534 | writes SectionEvents |
| HtmlTableLayout.TableLayoutRenderer.SectionOpening | src/java/org/metawidget/faces/renderkit/html/HtmlTableLayoutRenderer.java:502-514 | writes the tr, th, full-width colspan and section style |
| HtmlTableLayout.TableLayoutRenderer.SectionClosing | src/java/org/metawidget/faces/renderkit/html/HtmlTableLayoutRenderer.java:521-533 | writes the section heading and closes the th and tr |
| HtmlTableLayout.TableLayoutRenderer.LayoutAfterChild | src/java/org/metawidget/faces/renderkit/html/HtmlTableLayoutRenderer.java:536-577 | agrees with AfterChild |
| HtmlTableLayout.TableLayoutRenderer.LayoutRequiredCell | src/java/org/metawidget/faces/renderkit/html/HtmlTableLayoutRenderer.java:556-567 | writes the required td with its style, column class 2 and RequiredEvents |
| HtmlTableLayout.TableLayoutRenderer.LayoutRequired | src/java/org/metawidget/faces/renderkit/html/HtmlTableLayoutRenderer.java:579-607 | writes RequiredEvents |
| HtmlTableLayout.TableLayoutRenderer.StartCell | src/java/org/metawidget/faces/renderkit/html/HtmlTableLayoutRenderer.java:401-413 | writes a cell's start, id, style and column class |
| HtmlTableLayout.TableLayoutRenderer.WriteId | src/java/org/metawidget/faces/renderkit/html/HtmlTableLayoutRenderer.java:376-377 | writes IdAttribute |
| HtmlTableLayout.TableLayoutRenderer.WriteStyle | src/java/org/metawidget/faces/renderkit/html/HtmlTableLayoutRenderer.java:410-411 | writes StyleAttribute |
| HtmlTableLayout.TableLayoutRenderer.WriteColumnStyleClass | src/java/org/metawidget/faces/renderkit/html/HtmlTableLayoutRenderer.java:619-641 | writes ColumnStyleClass |
| HtmlTableLayout.TableLayoutRenderer.WriteRowStyleClass | src/java/org/metawidget/faces/renderkit/html/HtmlTableLayoutRenderer.java:643-657 | writes RowStyleClass; throws, writing nothing, exactly when the row-class list is empty |
| HtmlTableLayout.LayoutChildrenStopsAfterThrow | src/java/org/metawidget/faces/renderkit/html/HtmlTableLayoutRenderer.java:271-313 | once a child throws, later children change nothing |
| HtmlTableProperties.RendersAppend | src/java/org/metawidget/faces/renderkit/html/HtmlTableLayoutRenderer.java:271-313 | the components rendered by two pieces of output are those of the first, then those of the second |
| HtmlTableProperties.BeforeChildRendersNothing | src/java/org/metawidget/faces/renderkit/html/HtmlTableLayoutRenderer.java:329-452 | layoutBeforeChild renders no component |
| HtmlTableProperties.LayoutChildRendersIt | src/java/org/metawidget/faces/renderkit/html/HtmlTableLayoutRenderer.java:303-312 | a laid-out child is rendered exactly once, unless its row could not be started |
| HtmlTableProperties.LayoutChildrenRendersVisible | src/java/org/metawidget/faces/renderkit/html/HtmlTableLayoutRenderer.java:271-313 | encodeChildren renders exactly the visible children, in order: stubs without a rendered child, parameters, hidden inputs and unrendered components are skipped |
| HtmlTableProperties.BeforeChildAsWrittenRendersNothing | src/java/org/metawidget/faces/renderkit/html/HtmlTableLayoutRenderer.java:329-452 | as written, layoutBeforeChild renders no component |
| HtmlTableProperties.LayoutChildAsWrittenRendersIt | src/java/org/metawidget/faces/renderkit/html/HtmlTableLayoutRenderer.java:303-312 | as written, laying out a child renders that child exactly once, or nothing when layoutBeforeChild throws |
| HtmlTableProperties.LayoutChildrenAsWrittenRendersVisible | src/java/org/metawidget/faces/renderkit/html/HtmlTableLayoutRenderer.java:271-313 | as written, encodeChildren that does not throw still renders exactly the visible children in order, and it starts at most one row per visible child |
| HtmlTableProperties.AsWrittenRendersLikeCorrected | src/java/org/metawidget/faces/renderkit/html/HtmlTableLayoutRenderer.java:271-313 | with usable row classes, neither the as-written nor the corrected encodeChildren throws, and both render the same components in the same order; only the row breaks differ |
| HtmlTableProperties.HiddenChildrenRendersHiddenInputs | src/java/org/metawidget/faces/renderkit/html/HtmlTableLayoutRenderer.java:237-249 | layoutHiddenChildren renders exactly the hidden-input children, in order |
| HtmlTableProperties.VisibleIds | src/java/org/metawidget/faces/renderkit/html/HtmlTableLayoutRenderer.java:271-299 | there are no more visible children than children |
| HtmlTableProperties.AtMostOneRowPerChild | src/java/org/metawidget/faces/renderkit/html/HtmlTableLayoutRenderer.java:368-381 | the row number rises by at most one per visible child |
| HtmlTableProperties.OneColumnOneRowPerChild | src/java/org/metawidget/faces/renderkit/html/HtmlTableLayoutRenderer.java:368-381 | with one column, each visible child gets exactly one row and the column count is back to 0 after it |
| HtmlTableProperties.EmptyRowClassesThrow | src/java/org/metawidget/faces/renderkit/html/HtmlTableLayoutRenderer.java:643-657 | an empty row-class list throws at the first visible child, and with no visible child nothing happens |
| HtmlTableProperties.RowClassesRepeat | src/java/org/metawidget/faces/renderkit/html/HtmlTableLayoutRenderer.java:651 | row classes repeat with the period of the list |
| HtmlTableProperties.RemainderRepeats | src/java/org/metawidget/faces/renderkit/html/HtmlTableLayoutRenderer.java:651 | adding a multiple of n keeps the remainder modulo n |
| HtmlTableProperties.OddEvenClasses | src/java/org/metawidget/faces/renderkit/html/HtmlTableLayoutRenderer.java:643-657 | with "odd,even", row 0 is odd and row 1 even |
| HtmlTableProperties.BeginShape | src/java/org/metawidget/faces/renderkit/html/HtmlTableLayoutRenderer.java:104-231 | encodeBegin's output closes every row it opens and each row is full width |
| HtmlTableProperties.ScanFacetRow | src/java/org/metawidget/faces/renderkit/html/HtmlTableLayoutRenderer.java:180-202 | a facet row is one closed row of FullWidthColspan cells |
| HtmlTableProperties.ScanFacetRows | src/java/org/metawidget/faces/renderkit/html/HtmlTableLayoutRenderer.java:178-230 | the header and footer rows are full width and no row is left open |
| HtmlTableProperties.BeginTableShape | src/java/org/metawidget/faces/renderkit/html/HtmlTableLayoutRenderer.java:126-176 | with columns at least 1 and a usable row-class list, encodeBegin does not throw and the children start on a well-shaped table |
| HtmlTableProperties.ScanEndEvents | src/java/org/metawidget/faces/renderkit/html/HtmlTableLayoutRenderer.java:316-323 | encodeEnd leaves no row open and keeps every row within the bound |
| HtmlTableProperties.EncodedTableFitsHeader | src/java/org/metawidget/faces/renderkit/html/HtmlTableLayoutRenderer.java:104-323 | for columns at least 1 and a usable row-class list: encodeChildren renders exactly the visible children, the whole encoding leaves no row open, and no row is wider than the header |
| HtmlTableProperties.FacetRowRenders | src/java/org/metawidget/faces/renderkit/html/HtmlTableLayoutRenderer.java:180-202 | a header or footer row renders its facet and nothing else |
| HtmlTableProperties.FacetRowsRender | src/java/org/metawidget/faces/renderkit/html/HtmlTableLayoutRenderer.java:178-230 | the header and footer rows render the header facet, then the footer facet, each when present |
| HtmlTableProperties.TableStartRenders | src/java/org/metawidget/faces/renderkit/html/HtmlTableLayoutRenderer.java:111-122 | the opening of the table renders only the hidden inputs |
| HtmlTableProperties.BeginRenders | src/java/org/metawidget/faces/renderkit/html/HtmlTableLayoutRenderer.java:104-231 | encodeBegin renders the hidden inputs, then, unless `columns` is negative, the header and footer facets |
| HtmlTableProperties.EncodingRenders | src/java/org/metawidget/faces/renderkit/html/HtmlTableLayoutRenderer.java:104-323 | under the same conditions, encodeBegin, encodeChildren and encodeEnd together render the hidden inputs, then the facets, then the visible children, each exactly once |
| HtmlTableProperties.ZeroColumnRowsShareClass | src/java/org/metawidget/faces/renderkit/html/HtmlTableLayoutRenderer.java:387-399 | with zero columns, a labelled child's label row and extra component row get the same row class, that of the row just started |
| HtmlTableProperties.ZeroColumnRowsDifferAsWritten | src/java/org/metawidget/faces/renderkit/html/HtmlTableLayoutRenderer.java:379-398 | as written, with "odd,even", the first child's label row is odd and its extra row even |
| HtmlTableProperties.NewRowOneClass | src/java/org/metawidget/faces/renderkit/html/HtmlTableLayoutRenderer.java:368-381 | with column count 1 and no CSS id, a new row writes the tr and the class of the current row, and moves to the next row |
| HtmlTableProperties.ExtraRowOneClass | src/java/org/metawidget/faces/renderkit/html/HtmlTableLayoutRenderer.java:387-399 | with zero columns, the extra row as written takes the class of the current row number, the corrected one that of the row before it |
| HtmlTableProperties.SpanningChildOverflowsRowAsWritten | src/java/org/metawidget/faces/renderkit/html/HtmlTableLayoutRenderer.java:357-451 | as written, a nested metawidget after a normal child in a two-column layout makes a row of 9 cells under a header of 6; corrected, it starts a row of its own |
| HtmlTableProperties.ScanAfterChild | src/java/org/metawidget/faces/renderkit/html/HtmlTableLayoutRenderer.java:536-577 | layoutAfterChild adds one cell when there is a required cell, and closes the row exactly when the column count has reached `columns` |
| HtmlTableRows.ScanAppend | src/java/org/metawidget/faces/renderkit/html/HtmlTableLayoutRenderer.java:271-313 | measuring two pieces of output is measuring the first, then the second |
| HtmlTableRows.ScanSection | src/java/org/metawidget/faces/renderkit/html/HtmlTableLayoutRenderer.java:492-534 | a section heading row is one closed row of FullWidthColspan cells |
| HtmlTableRows.ScanLabel | src/java/org/metawidget/faces/renderkit/html/HtmlTableLayoutRenderer.java:458-490 | a label cell adds one cell exactly when a label is written |
| HtmlTableRows.ScanComponentCell | src/java/org/metawidget/faces/renderkit/html/HtmlTableLayoutRenderer.java:401-451 | the component cell adds its colspan in cells |
| HtmlTableRows.ScanCellEnds | src/java/org/metawidget/faces/renderkit/html/HtmlTableLayoutRenderer.java:543-568 | the required cell adds one cell exactly when it is written |
| HtmlTableRows.RowStages | src/java/org/metawidget/faces/renderkit/html/HtmlTableLayoutRenderer.java:346-399 | on a well-shaped table, the stages before the label cell leave a row open and within bounds: a fresh empty row when a row starts, otherwise the open row unchanged, with room left for the child |
| HtmlTableRows.ClosedRowsFit | src/java/org/metawidget/faces/renderkit/html/HtmlTableLayoutRenderer.java:572-576 | closing the open row of a table within the bound, with or without opening a fresh one, keeps every row within the bound |
| HtmlTableRows.BeforeChildShape | src/java/org/metawidget/faces/renderkit/html/HtmlTableLayoutRenderer.java:329-452 | with one or more columns, layoutBeforeChild keeps the open row within three cells per counted column |
| HtmlTableRows.AfterChildShape | src/java/org/metawidget/faces/renderkit/html/HtmlTableLayoutRenderer.java:536-577 | layoutAfterChild keeps the shape: a row is open exactly when the column count is not zero |
| HtmlTableRows.LayoutChildKeepsShape | src/java/org/metawidget/faces/renderkit/html/HtmlTableLayoutRenderer.java:303-312 | with one or more columns, each child keeps the column count in [0, columns) and every row within 3 * columns cells |
| HtmlTableRows.LayoutChildrenKeepsShape | src/java/org/metawidget/faces/renderkit/html/HtmlTableLayoutRenderer.java:271-313 | the shape holds across all the children |
| FacesReadOnlyWidgetBuilder.BuildWidget | modules/java/faces/core/src/main/java/org/metawidget/faces/component/html/widgetbuilder/ReadOnlyWidgetBuilder.java:55-181 | declines exactly in the cases Declines lists (not read-only; an action with its own component; List, DataModel or array; an expandable type); hidden gives a bare stub; masked gives a stub holding one stub; an action gives a disabled button with the label; a lookup with labels gives a lookup output with the parsed values and labels; every other result is HtmlOutputText: a lookup whose labels are absent or parse to nothing, a faces lookup, a primitive, wrapper, Date, String or other collection class, and DONT_EXPAND or a SimpleLayout |
| FacesReadOnlyWidgetBuilder.LookupTakesPrecedenceOverClass | modules/java/faces/core/src/main/java/org/metawidget/faces/component/html/widgetbuilder/ReadOnlyWidgetBuilder.java:101-180 | once a non-empty lookup is present, the class, DONT_EXPAND, the faces lookup and the layout no longer change the result |
| AndroidWidgetChoice.LabelString | src/java/org/metawidget/android/widget/AndroidMetawidget.java:267-321 | null attributes give ""; an explicit empty label gives null; an explicit label gives it trimmed; otherwise the uncamel-cased name; otherwise "" |
| AndroidWidgetChoice.BuildReadOnlyWidget | src/java/org/metawidget/android/widget/AndroidMetawidget.java:589-665 | hidden gives no View; masked an invisible TextView; Collection a disabled ListView; an expandable type a nested metawidget; every other case a visible TextView; every View built is inert |
| AndroidWidgetChoice.PrependNull | src/java/org/metawidget/android/widget/AndroidMetawidget.java:709-726 | a non-empty list gets null put in front of it; an empty one stays empty |
| AndroidWidgetChoice.BuildActiveWidget | src/java/org/metawidget/android/widget/AndroidMetawidget.java:667-810 | hidden gives no View, and only hidden; no type gives a plain EditText; boolean a CheckBox; integral types a digits-only EditText; a Spinner exactly for a lookup on a resolved non-primitive class, its values and labels with null prepended; a String a password when masked, three lines when large, length-limited when given, and no other EditText is masked, line-limited or length-limited; Date itself a date EditText; Boolean the tri-state spinner [null, TRUE, FALSE]; a collection an enabled ListView; any other typed property a nested metawidget, or a TextView when DONT_EXPAND |
| AndroidWidgetChoice.ReadOnlyExpansionImpliesActiveExpansion | src/java/org/metawidget/android/widget/AndroidMetawidget.java:589-810 | a property shown as a nested metawidget in read-only mode is also one in editable mode |
| AndroidWidgetChoice.UnresolvedLookupIsNotASpinner | src/java/org/metawidget/android/widget/AndroidMetawidget.java:610-684 | a lookup on a type that does not resolve gives a TextView when read-only and no Spinner when editable |
| AndroidMetawidgetState.ParameterKey | src/java/org/metawidget/android/widget/AndroidMetawidget.java:148-158 | an attribute is a parameter exactly when it is named "param" followed by an upper-case letter |
| AndroidMetawidgetState.LowercaseFirstLetter | src/java/org/metawidget/android/widget/AndroidMetawidget.java:165-169 | the key keeps the length of the attribute name after "param" |
| AndroidMetawidgetState.ParameterKeyInverse | src/java/org/metawidget/android/widget/AndroidMetawidget.java:148-170 | "param" and the key with its first letter in upper case give back the attribute's name |
| AndroidMetawidgetState.ParameterKeyRoundTrip | src/java/org/metawidget/android/widget/AndroidMetawidget.java:148-170 | the key of "param" and a capitalised key is that key |
| AndroidMetawidgetState.ParameterValueOf | src/java/org/metawidget/android/widget/AndroidMetawidget.java:162-170 | a value starting with "@" is replaced by its resource id; any other value is kept as text |
| AndroidMetawidgetState.XmlParameterKeys | src/java/org/metawidget/android/widget/AndroidMetawidget.java:143-170 | characterises XmlParameters, the map read from the XML element: its keys are exactly those of the parameter attributes |
| AndroidMetawidgetState.XmlParameterValues | src/java/org/metawidget/android/widget/AndroidMetawidget.java:143-170 | characterises XmlParameters: each parameter holds the value of the last attribute stored under its key |
| AndroidMetawidgetState.AttributeValue | src/java/org/metawidget/android/widget/AndroidMetawidget.java:174-184 | an attribute value is found exactly when an attribute has that name, and it is the value of the first such attribute |
| AndroidMetawidgetState.AttributeResourceValue | src/java/org/metawidget/android/widget/AndroidMetawidget.java:174 | the resource id of the first attribute with that name, or the given default (0 at line 174) when no attribute has it |
| AndroidMetawidgetState.XmlReadOnly | src/java/org/metawidget/android/widget/AndroidMetawidget.java:185-192 | read-only exactly when the first readOnly attribute parses as true with Boolean.parseBoolean; otherwise the default false |
| AndroidMetawidgetState.XmlLayoutClass | src/java/org/metawidget/android/widget/AndroidMetawidget.java:176-183 | no layout attribute, or an empty one, gives TableLayout; a named layout gives no class exactly when the name does not resolve |
| AndroidMetawidgetState.ChildrenPartition | src/java/org/metawidget/android/widget/AndroidMetawidget.java:527-541 | each child is either a facet, kept under its name, or an existing view |
| AndroidMetawidgetState.UnusedChildCalls | src/java/org/metawidget/android/widget/AndroidMetawidget.java:818-821 | each view left unused is laid out with null attributes, in order |
| AndroidMetawidgetState.AndroidMetawidget.constructor | src/java/org/metawidget/android/widget/AndroidMetawidget.java:128-134 | a metawidget made from code has TableLayout, no parameters, nothing to inspect and nothing to build |
| AndroidMetawidgetState.AndroidMetawidget.FromXml | src/java/org/metawidget/android/widget/AndroidMetawidget.java:136-193 | the parameters are XmlParameters; the inspector configuration and read-only flag come from their attributes; the layout class is XmlLayoutClass, so a named layout that does not resolve leaves no class; nothing is built yet |
| AndroidMetawidgetState.AndroidMetawidget.ReadParameters | src/java/org/metawidget/android/widget/AndroidMetawidget.java:143-170 | the constructor's loop computes XmlParameters |
| AndroidMetawidgetState.AndroidMetawidget.Nested | src/java/org/metawidget/android/widget/AndroidMetawidget.java:195-207 | a nested metawidget takes the object, inspector, configuration, layout class and parameters, but not the path |
| AndroidMetawidgetState.AndroidMetawidget.InvalidateWidgets | src/java/org/metawidget/android/widget/AndroidMetawidget.java:494-502 | marks the widgets dirty; asks for a redraw only when they were clean; keeps one build per redraw |
| AndroidMetawidgetState.AndroidMetawidget.BuildWidgets | src/java/org/metawidget/android/widget/AndroidMetawidget.java:504-521 | builds exactly when dirty, clearing the flag first, so each invalidation gives at most one build |
| AndroidMetawidgetState.AndroidMetawidget.SetPath | src/java/org/metawidget/android/widget/AndroidMetawidget.java:217-221 | sets the path and invalidates; nothing else changes |
| AndroidMetawidgetState.AndroidMetawidget.SetToInspect | src/java/org/metawidget/android/widget/AndroidMetawidget.java:223-233 | a non-null object replaces a null path, or one without "/", with its class name; otherwise the path is kept; it invalidates and nothing else changes |
| AndroidMetawidgetState.AndroidMetawidget.SetInspectorConfig | src/java/org/metawidget/android/widget/AndroidMetawidget.java:241-246 | sets the configuration and clears the Inspector; nothing else changes |
| AndroidMetawidgetState.AndroidMetawidget.SetInspector | src/java/org/metawidget/android/widget/AndroidMetawidget.java:248-253 | sets the Inspector and zeroes the configuration; nothing else changes |
| AndroidMetawidgetState.AndroidMetawidget.SetLayoutClass | src/java/org/metawidget/android/widget/AndroidMetawidget.java:260-265 | sets the layout class and drops the Layout; nothing else changes |
| AndroidMetawidgetState.AndroidMetawidget.SetReadOnly | src/java/org/metawidget/android/widget/AndroidMetawidget.java:348-352 | sets the read-only flag and invalidates; nothing else changes |
| AndroidMetawidgetState.AndroidMetawidget.SetParameter | src/java/org/metawidget/android/widget/AndroidMetawidget.java:323-341 | the new value is read back and every other parameter is unchanged |
| AndroidMetawidgetState.AndroidMetawidget.GetParameter | src/java/org/metawidget/android/widget/AndroidMetawidget.java:323-329 | a parameter is found exactly when one is stored under that name, and it is the stored value; a null map is the empty map |
| AndroidMetawidgetState.AndroidMetawidget.StartBuild | src/java/org/metawidget/android/widget/AndroidMetawidget.java:523-555 | the first build sorts the children into facets and existing views; every build removes the children, makes every existing view unused again and begins a new Layout; a null layout class throws |
| AndroidMetawidgetState.AndroidMetawidget.SortChildren | src/java/org/metawidget/android/widget/AndroidMetawidget.java:530-545 | the loop over the children computes Facets and ExistingViews |
| AndroidMetawidgetState.AndroidMetawidget.AddWidget | src/java/org/metawidget/android/widget/AndroidMetawidget.java:557-564 | tags the view with the property's name and hands it to the Layout, if there is one |
| AndroidMetawidgetState.AndroidMetawidget.GetOverridenWidget | src/java/org/metawidget/android/widget/AndroidMetawidget.java:566-587 | null for a null name; otherwise an unused view tagged with the name, which is then no longer unused, or null when no such view is left; no view is handed out twice |
| AndroidMetawidgetState.AndroidMetawidget.EndBuild | src/java/org/metawidget/android/widget/AndroidMetawidget.java:812-827 | with a Layout, each unused view is laid out once with null attributes and the Layout is ended; without one nothing happens |
| AndroidMetawidgetState.AndroidMetawidget.InSomeOrder | src/java/org/metawidget/android/widget/AndroidMetawidget.java:816-819 | iterating over a set visits each element exactly once |
| AndroidMetawidgetState.AndroidMetawidget.InitMetawidget | src/java/org/metawidget/android/widget/AndroidMetawidget.java:892-896 | the nested metawidget inspects this path + "/" + the property's name on the same object, takes the property's read-only flag and is built once |
| BeanUtilsConfig.BeanUtilsBindingProcessorConfig.SetPropertyStyle | modules/java/commons/beanutils/src/main/java/org/metawidget/swing/widgetprocessor/binding/beanutils/BeanUtilsBindingProcessorConfig.java:56-64 | returns the config itself; a null style is recorded as set to null, any other style as that style |
| BeanUtilsConfig.BeanUtilsBindingProcessorConfig.GetPropertyStyle | modules/java/commons/beanutils/src/main/java/org/metawidget/swing/widgetprocessor/binding/beanutils/BeanUtilsBindingProcessorConfig.java:106-119 | returns the style set, or null once set to null; if never set, returns the shared default, created on the first call and the same object after that |
| BeanUtilsConfig.BeanUtilsBindingProcessorConfig.Equals | modules/java/commons/beanutils/src/main/java/org/metawidget/swing/widgetprocessor/binding/beanutils/BeanUtilsBindingProcessorConfig.java:67-86 | two configs are equal exactly when they have the same setting: same style object and same null flag |
| BeanUtilsConfig.SettingOf | modules/java/commons/beanutils/src/main/java/org/metawidget/swing/widgetprocessor/binding/beanutils/BeanUtilsBindingProcessorConfig.java:42-44 | the two fields encode three settings: a style, set to null (the flag), or never set |
| BeanUtilsConfig.HashSteps | modules/java/commons/beanutils/src/main/java/org/metawidget/swing/widgetprocessor/binding/beanutils/BeanUtilsBindingProcessorConfig.java:91-93 | wrapping to 32 bits after every step gives the same hash as one wrap per step |
| BeanUtilsConfig.HashOfFields | modules/java/commons/beanutils/src/main/java/org/metawidget/swing/widgetprocessor/binding/beanutils/BeanUtilsBindingProcessorConfig.java:89-96 | hashCode's arithmetic on the two fields is the hash of the setting they encode |
| BeanUtilsConfig.HashCodeOfSetting | modules/java/commons/beanutils/src/main/java/org/metawidget/swing/widgetprocessor/binding/beanutils/BeanUtilsBindingProcessorConfig.java:89-96 | hashCode depends only on the setting |
| BeanUtilsConfig.BeanUtilsBindingProcessorConfig.HashCode | modules/java/commons/beanutils/src/main/java/org/metawidget/swing/widgetprocessor/binding/beanutils/BeanUtilsBindingProcessorConfig.java:89-96 | the hash code is the 31-based hash of the two property-style fields, as a function of the config's three-state setting |
| BeanUtilsConfig.EqualsIsReflexiveAndSymmetric | modules/java/commons/beanutils/src/main/java/org/metawidget/swing/widgetprocessor/binding/beanutils/BeanUtilsBindingProcessorConfig.java:67-86 | equals is reflexive and symmetric |
| BeanUtilsConfig.EqualConfigsHashAlike | modules/java/commons/beanutils/src/main/java/org/metawidget/swing/widgetprocessor/binding/beanutils/BeanUtilsBindingProcessorConfig.java:67-96 | equal configs have equal hash codes |
| BeanUtilsConfig.NeverSetIsNotSetToNull | modules/java/commons/beanutils/src/main/java/org/metawidget/swing/widgetprocessor/binding/beanutils/BeanUtilsBindingProcessorConfig.java:67-96 | a config never set differs from one set to null, in equals and in hashCode |
| JavaLang.Trim | src/java/org/metawidget/faces/renderkit/html/HtmlTableLayoutRenderer.java:640 | String.trim: the string without leading and trailing characters up to space |
| JavaLang.TrimIdempotent | src/java/org/metawidget/faces/renderkit/html/HtmlTableLayoutRenderer.java:640 | trimming twice is trimming once |
| JavaLang.Pieces | src/java/org/metawidget/faces/renderkit/html/HtmlTableLayoutRenderer.java:159 | the pieces between commas contain no comma |
| JavaLang.PiecesRoundTrip | src/java/org/metawidget/faces/renderkit/html/HtmlTableLayoutRenderer.java:159 | joining the pieces with commas gives back the string |
| JavaLang.SplitComma | src/java/org/metawidget/faces/renderkit/html/HtmlTableLayoutRenderer.java:159-164 | String.split(","): the pieces without the trailing empty ones; a string without a comma gives itself |
| JavaLang.OnlyCommasSplitToNothing | src/java/org/metawidget/faces/renderkit/html/HtmlTableLayoutRenderer.java:164 | a string of commas splits to an empty list |
| JavaLang.ParseDigitsOfNatToString | src/java/org/metawidget/faces/renderkit/html/HtmlTableLayoutRenderer.java:191 | the decimal text of a count reads back as the count |
| JavaLang.NatToString | src/java/org/metawidget/faces/renderkit/html/HtmlTableLayoutRenderer.java:191 | String.valueOf of a count: a non-empty string of decimal digits |
| JavaLang.ParseBoolean | src/java/org/metawidget/android/widget/AndroidMetawidget.java:187 | true exactly for a four-letter text whose every letter is that of "true" in either case, so "true", "TRUE" and "True" parse as true |
| JavaLang.Wrap32 | modules/java/commons/beanutils/src/main/java/org/metawidget/swing/widgetprocessor/binding/beanutils/BeanUtilsBindingProcessorConfig.java:92-93 | a Java int result is the exact result modulo 2^32, and is unchanged when it already fits |
| JavaLang.WrapThenAdd | modules/java/commons/beanutils/src/main/java/org/metawidget/swing/widgetprocessor/binding/beanutils/BeanUtilsBindingProcessorConfig.java:92-93 | wrapping before an addition changes nothing |

## Left out

- The JavaServer Faces and Android toolkits are not modelled. Components render themselves as one event each. Views are values with an identity, a tag and, for a facet, its name. The Layout is a log of the calls made on it.
- super.encodeBegin writes nothing the model records. writeStyleAndClass and the label text written by the superclass are one event each.
- getCssId is not modelled. Each child carries its CSS id.
- Integer.parseInt of `columns` is not modelled. The parameter arrives already parsed, so its NumberFormatException is not modelled.
- FacesUtils.findParameterWithName is not modelled. The parameters arrive as a record.
- Localization is not modelled. getLocalizedKey always returns null on Android, and the Faces section heading is its own event.
- The `state == null` early return of encodeChildren is left out. getState never returns null, so that branch cannot be taken.
- HtmlTableSpec.TableState: currentRow is a natural number. The source's int cannot overflow in a layout of fewer than 2^31 rows.
- HtmlTableLayout.TableLayoutRenderer.ReadParameters assigns every style field. The source assigns only the ones whose parameter is present. Both start from an unset field, so the outcome is the same.
- HtmlTableProperties.EncodedTableFitsHeader covers one or more columns. With zero columns the header is 2 cells wide and each labelled child takes two rows.
- The metadata map is null or present. "containsKey" at line 549 and "get" at line 339 are taken to agree.
- Inspection is not modelled: inspect, the INSPECTORS cache and PathUtils. AndroidMetawidgetState.AndroidMetawidget.BuildWidgets counts the builds it hands to the mixin, and MetawidgetMixin is not part of this model.
- The reflective createMetawidget and the Layout constructor are not modelled. A reflective failure other than a null layout class is left out.
- findViewWithTag, getValue, setValue, getFacet, onDraw and the traversal overrides search or draw the Android view tree. They are left out.
- AndroidMetawidgetState.IsFirstLetterUppercase and LowercaseFirstLetter handle ASCII letters only. StringUtils is not part of this model.
- AndroidMetawidgetState.AndroidMetawidget.SetParameter: null parameter values are not modelled, and a null mParameters map is the empty map.
- AndroidMetawidgetState.AndroidMetawidget.EndBuild and InSomeOrder: the order of a HashSet is not specified, so any order that visits each unused view once is allowed.
- AndroidWidgetChoice.BuildActiveWidget keeps the maximum length as text. Integer.parseInt and its exception are not modelled.
- BeanUtilsConfig.BeanUtilsBindingProcessorConfig.Equals compares styles by identity. This is Object.equals; a PropertyStyle overriding equals is not modelled. A subclass of the config, which nullSafeClassEquals would reject, is not modelled either.
- BeanUtilsConfig.JAVA_BEAN_PROPERTY_STYLE_HASH: the hash of the default JavaBeanPropertyStyle is a fixed placeholder, because JavaBeanPropertyStyle is not part of this model.
- Concurrency is not modelled. The static default of BeanUtilsBindingProcessorConfig is an object passed to the getter.

## Findings

| source | as written | input that shows it | evidently intended | confidence | as-written member | corrected member |
|---|---|---|---|---|---|---|
| src/java/org/metawidget/faces/renderkit/html/HtmlTableLayoutRenderer.java:387-399 | The extra row of a zero-column layout writes its class with currentRow after the increment at line 380, so it gets the next row's class. | columns=0, rowClasses="odd,even", first child labelled: the label row is "odd", the component row "even". | The comment at lines 387-388 says the extra row is coloured the same, i.e. it takes the class of the row just started. | not executed | HtmlTableProperties.ZeroColumnRowsDifferAsWritten | HtmlTableProperties.ZeroColumnRowsShareClass |
| src/java/org/metawidget/faces/renderkit/html/HtmlTableLayoutRenderer.java:357-365 | Only a child marked LARGE ends the open row; the other half of the test asks whether the metawidget itself is a UIData, which it never is. A nested metawidget or UIData child spans all columns at line 421 without ending the row. | columns=2, a normal child then a nested metawidget: one row of 3 + 6 = 9 cells under a header of 6. | Every child that spans all columns gets a row of its own, so no row is wider than the header. | not executed | HtmlTableProperties.SpanningChildOverflowsRowAsWritten | HtmlTableProperties.EncodedTableFitsHeader |
