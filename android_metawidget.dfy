/**
 * The bookkeeping of AndroidMetawidget: the parameters read from its XML
 * element, the setters that invalidate the widgets, the dirty flag that lets
 * a build happen once per invalidation, the views found among its children
 * (facets apart) and reused at most once each, and the set-up of a nested
 * metawidget. The Android View tree and the Layout are reduced to values and
 * to a log of the calls made on the Layout.
 */
module AndroidMetawidgetState {
  import opened JavaLang

  const PARAM_PREFIX: string := "param"
  const SEPARATOR_FORWARD_SLASH: string := "/"
  /** The attribute that names a property. */
  const NAME: string := "name"
  /** The layout a metawidget starts with. */
  const DEFAULT_LAYOUT_CLASS: string := "TableLayout"

  /** A parameter value read from XML: the attribute's text, or the resource id it refers to. */
  datatype ParameterValue = Text(text: string) | ResourceId(id: int)

  /** One attribute of the XML element; resourceValue is the resource id Android resolves for it. */
  datatype XmlAttribute = XmlAttribute(name: string, value: string, resourceValue: int)

  /** A View: `id` stands for its identity, `tag` is View.getTag() and facetName is set for a Facet. */
  datatype View = View(id: nat, tag: Option<string>, facetName: Option<string>)

  /** The object to inspect, by the name of its (unproxied) class. */
  datatype Inspected = Inspected(className: string)

  /** A call on the Layout; `attributes` is None for the null map endBuild passes. */
  datatype LayoutCall = LayoutBegin | LayoutChild(view: View, attributes: Option<map<string, string>>) | LayoutEnd

  // ---------------------------------------------------------------------------
  // Strings
  // ---------------------------------------------------------------------------

  predicate StartsWith(s: string, prefix: string) {
    |prefix| <= |s| && s[..|prefix|] == prefix
  }

  predicate IsUpperAscii(c: char) {
    'A' <= c <= 'Z'
  }

  /** StringUtils.isFirstLetterUppercase, for ASCII letters. */
  predicate IsFirstLetterUppercase(s: string) {
    |s| > 0 && IsUpperAscii(s[0])
  }

  /** StringUtils.lowercaseFirstLetter, for ASCII letters. */
  function LowercaseFirstLetter(s: string): (r: string)
    ensures |r| == |s|
  {
    if s == [] then [] else [ToLowerAscii(s[0])] + s[1..]
  }

  function UppercaseFirstLetter(s: string): (r: string)
    ensures |r| == |s|
  {
    if s != [] && 'a' <= s[0] <= 'z' then [(s[0] as int - 'a' as int + 'A' as int) as char] + s[1..] else s
  }

  /** attributes.get(key), null being None. */
  function Get(attributes: map<string, string>, key: string): Option<string> {
    if key in attributes then Some(attributes[key]) else None
  }

  // ---------------------------------------------------------------------------
  // Parameters from XML
  // ---------------------------------------------------------------------------

  /**
   * The key an XML attribute's value is stored under: only "param" followed
   * by a name with an upper-case first letter is a parameter, and its key is
   * that name with the first letter in lower case.
   */
  function ParameterKey(name: string): (r: Option<string>)
    ensures r.Some? <==> |name| > 5 && name[..5] == "param" && IsUpperAscii(name[5])
  {
    if !StartsWith(name, PARAM_PREFIX) then None
    else
      var rest := name[|PARAM_PREFIX|..];
      if !IsFirstLetterUppercase(rest) then None else Some(LowercaseFirstLetter(rest))
  }

  /** A key gives back the attribute's name: "param" and the key with its first letter in upper case. */
  lemma ParameterKeyInverse(name: string)
    ensures ParameterKey(name).Some? ==> PARAM_PREFIX + UppercaseFirstLetter(ParameterKey(name).value) == name
  {
    if ParameterKey(name).Some? {
      var key := ParameterKey(name).value;
      assert key == [ToLowerAscii(name[5])] + name[6..];
      assert UppercaseFirstLetter(key) == name[5..];
      assert name == name[..5] + name[5..];
    }
  }

  /** "param" and the capitalised key give back the key. */
  lemma ParameterKeyRoundTrip(key: string)
    requires |key| > 0 && 'a' <= key[0] <= 'z'
    ensures ParameterKey(PARAM_PREFIX + UppercaseFirstLetter(key)) == Some(key)
  {
    var up := UppercaseFirstLetter(key);
    assert up == [(key[0] as int - 'a' as int + 'A' as int) as char] + key[1..];
    assert (PARAM_PREFIX + up)[..5] == PARAM_PREFIX;
    assert (PARAM_PREFIX + up)[5..] == up;
    assert LowercaseFirstLetter(up) == [key[0]] + key[1..];
    assert [key[0]] + key[1..] == key;
  }

  /** A value starting with "@" names a resource: the parameter is the resource id. */
  function ParameterValueOf(a: XmlAttribute): (r: ParameterValue)
    ensures r.ResourceId? <==> StartsWith(a.value, "@")
    ensures r.ResourceId? ==> r.id == a.resourceValue
    ensures r.Text? ==> r.text == a.value
  {
    if StartsWith(a.value, "@") then ResourceId(a.resourceValue) else Text(a.value)
  }

  /** The parameters the XML constructor's loop sets, in order, a later attribute overriding an earlier one. */
  function XmlParameters(attributes: seq<XmlAttribute>): map<string, ParameterValue>
    decreases |attributes|
  {
    if attributes == [] then map[]
    else
      var previous := XmlParameters(attributes[..|attributes| - 1]);
      var last := attributes[|attributes| - 1];
      match ParameterKey(last.name)
      case None => previous
      case Some(key) => previous[key := ParameterValueOf(last)]
  }

  /** Whether the attribute at `i` is stored under `key`. */
  predicate KeyAt(attributes: seq<XmlAttribute>, i: int, key: string) {
    0 <= i < |attributes| && ParameterKey(attributes[i].name) == Some(key)
  }

  /** Whether the attribute at `i` is the last one stored under `key`. */
  predicate LastWithKey(attributes: seq<XmlAttribute>, key: string, i: int) {
    KeyAt(attributes, i, key) && forall j :: i < j < |attributes| ==> !KeyAt(attributes, j, key)
  }

  /** Exactly the parameter attributes give keys. */
  lemma {:induction false} XmlParameterKeys(attributes: seq<XmlAttribute>, key: string)
    ensures key in XmlParameters(attributes) <==> exists i :: KeyAt(attributes, i, key)
    decreases |attributes|
  {
    if attributes != [] {
      var n := |attributes| - 1;
      XmlParameterKeys(attributes[..n], key);
      if !KeyAt(attributes, n, key) {
        if exists i :: KeyAt(attributes, i, key) {
          var i :| KeyAt(attributes, i, key);
          assert KeyAt(attributes[..n], i, key);
        }
        if exists i :: KeyAt(attributes[..n], i, key) {
          var i :| KeyAt(attributes[..n], i, key);
          assert KeyAt(attributes, i, key);
        }
      }
    }
  }

  /** Each key holds the value of the last attribute stored under it. */
  lemma {:induction false} XmlParameterValues(attributes: seq<XmlAttribute>, key: string)
    requires key in XmlParameters(attributes)
    ensures exists i :: LastWithKey(attributes, key, i) && XmlParameters(attributes)[key] == ParameterValueOf(attributes[i])
    decreases |attributes|
  {
    var n := |attributes| - 1;
    if KeyAt(attributes, n, key) {
      assert LastWithKey(attributes, key, n);
    } else {
      var previous := attributes[..n];
      assert key in XmlParameters(previous) && XmlParameters(attributes)[key] == XmlParameters(previous)[key];
      XmlParameterValues(previous, key);
      var i :| LastWithKey(previous, key, i) && XmlParameters(previous)[key] == ParameterValueOf(previous[i]);
      assert previous[i] == attributes[i];
      forall j | i < j < |attributes|
        ensures !KeyAt(attributes, j, key)
      {
        if j < n {
          assert !KeyAt(previous, j, key) && previous[j] == attributes[j];
        }
      }
    }
  }

  /** Whether the attribute at `i` is the first one with this name. */
  predicate FirstNamed(attributes: seq<XmlAttribute>, name: string, i: int) {
    0 <= i < |attributes| && attributes[i].name == name && forall j :: 0 <= j < i ==> attributes[j].name != name
  }

  /** The value of the first attribute with this name (AttributeSet.getAttributeValue), or None. */
  function AttributeValue(attributes: seq<XmlAttribute>, name: string): (r: Option<string>)
    ensures r.Some? <==> exists i :: 0 <= i < |attributes| && attributes[i].name == name
    ensures r.Some? ==> exists i :: FirstNamed(attributes, name, i) && r.value == attributes[i].value
    ensures forall i :: FirstNamed(attributes, name, i) ==> r == Some(attributes[i].value)
    decreases |attributes|
  {
    if attributes == [] then None
    else if attributes[0].name == name then Some(attributes[0].value)
    else
      var r := AttributeValue(attributes[1..], name);
      assert forall i :: 1 <= i < |attributes| ==> attributes[i] == attributes[1..][i - 1];
      assert forall i :: FirstNamed(attributes[1..], name, i) ==> FirstNamed(attributes, name, i + 1);
      assert forall i :: FirstNamed(attributes, name, i) ==> FirstNamed(attributes[1..], name, i - 1);
      r
  }

  /** The resource id of the first attribute with this name (AttributeSet.getAttributeResourceValue), or the default. */
  function AttributeResourceValue(attributes: seq<XmlAttribute>, name: string, default: int): (r: int)
    // the default when no attribute has this name
    ensures (forall i :: 0 <= i < |attributes| ==> attributes[i].name != name) ==> r == default
    // otherwise the resource id of the first one
    ensures forall i :: FirstNamed(attributes, name, i) ==> r == attributes[i].resourceValue
    decreases |attributes|
  {
    if attributes == [] then default
    else if attributes[0].name == name then attributes[0].resourceValue
    else
      var r := AttributeResourceValue(attributes[1..], name, default);
      assert forall i :: 1 <= i < |attributes| ==> attributes[i] == attributes[1..][i - 1];
      assert forall i :: FirstNamed(attributes, name, i) ==> FirstNamed(attributes[1..], name, i - 1);
      r
  }

  /**
   * The layout class after the XML constructor: the class `niceForName`
   * resolves a non-empty "layout" attribute to (None when it resolves to
   * nothing), otherwise the default TableLayout.
   */
  function XmlLayoutClass(attributes: seq<XmlAttribute>, niceForName: string -> Option<string>): (r: Option<string>)
    ensures AttributeValue(attributes, "layout") in {None, Some("")} ==> r == Some(DEFAULT_LAYOUT_CLASS)
    ensures r.None? <==> exists name :: AttributeValue(attributes, "layout") == Some(name) && name != "" && niceForName(name).None?
  {
    var layout := AttributeValue(attributes, "layout");
    if layout.Some? && layout.value != "" then niceForName(layout.value) else Some(DEFAULT_LAYOUT_CLASS)
  }

  /** The read-only flag the XML sets, when it sets one. */
  function XmlReadOnly(attributes: seq<XmlAttribute>): (r: bool)
    // read-only exactly when the first readOnly attribute parses as true; otherwise the default false
    ensures r <==> exists i :: FirstNamed(attributes, "readOnly", i) && ParseBoolean(attributes[i].value)
  {
    var readOnly := AttributeValue(attributes, "readOnly");
    readOnly.Some? && readOnly.value != "" && ParseBoolean(readOnly.value)
  }

  // ---------------------------------------------------------------------------
  // Children: facets and existing views
  // ---------------------------------------------------------------------------

  /** The facets among the children, by name; a later facet of the same name replaces an earlier one. */
  function Facets(children: seq<View>): map<string, View>
    decreases |children|
  {
    if children == [] then map[]
    else
      var previous := Facets(children[..|children| - 1]);
      var last := children[|children| - 1];
      if last.facetName.Some? then previous[last.facetName.value := last] else previous
  }

  /** The children that are not facets. */
  function ExistingViews(children: seq<View>): set<View>
    decreases |children|
  {
    if children == [] then {}
    else
      var previous := ExistingViews(children[..|children| - 1]);
      var last := children[|children| - 1];
      if last.facetName.Some? then previous else previous + {last}
  }

  /** Every child is either a facet, kept under its name, or an existing view, and nothing else is either. */
  lemma {:induction false} ChildrenPartition(children: seq<View>, v: View, name: string)
    ensures v in ExistingViews(children) <==> v in children && v.facetName.None?
    ensures name in Facets(children) <==> exists i :: 0 <= i < |children| && children[i].facetName == Some(name)
    ensures name in Facets(children) ==> Facets(children)[name] in children && Facets(children)[name].facetName == Some(name)
    decreases |children|
  {
    if children != [] {
      var n := |children| - 1;
      var previous := children[..n];
      ChildrenPartition(previous, v, name);
      assert children == previous + [children[n]];
      if children[n].facetName != Some(name) {
        if exists i :: 0 <= i < |children| && children[i].facetName == Some(name) {
          var i :| 0 <= i < |children| && children[i].facetName == Some(name);
          assert previous[i] == children[i];
        }
      }
    }
  }

  /** The Layout calls for views laid out with null attributes, in order. */
  function UnusedChildCalls(views: seq<View>): (r: seq<LayoutCall>)
    ensures |r| == |views|
    ensures forall k :: 0 <= k < |views| ==> r[k] == LayoutChild(views[k], None)
    decreases |views|
  {
    if views == [] then [] else UnusedChildCalls(views[..|views| - 1]) + [LayoutChild(views[|views| - 1], None)]
  }

  function Count(b: bool): nat {
    if b then 1 else 0
  }

  // ---------------------------------------------------------------------------
  // The metawidget
  // ---------------------------------------------------------------------------

  class AndroidMetawidget {
    var toInspect: Option<Inspected>
    var path: Option<string>
    var inspectorConfig: int
    /** The Inspector set from code, by identity. */
    var inspector: Option<nat>
    var layoutClass: Option<string>
    /** Whether mLayout is set. */
    var hasLayout: bool
    var parameters: map<string, ParameterValue>
    var needToBuildWidgets: bool
    var existingViews: Option<set<View>>
    var existingViewsUnused: set<View>
    var facets: map<string, View>
    /** The read-only flag kept by the mixin. */
    var readOnly: bool
    /** The child Views of this ViewGroup. */
    var children: seq<View>
    /** The calls made on the Layout. */
    var layoutCalls: seq<LayoutCall>
    /** The builds handed to the mixin. */
    var builds: nat
    /** The redraws requested with invalidate(). */
    var redraws: nat

    /**
     * A build happens once per invalidation: every redraw request is matched
     * by a build or by the pending flag. The views not yet reused are among
     * the existing views.
     */
    predicate Valid()
      reads this
    {
      builds + Count(needToBuildWidgets) == redraws
      && (existingViews.None? ==> existingViewsUnused == {})
      && (existingViews.Some? ==> existingViewsUnused <= existingViews.value)
    }

    /** The metawidget created from code. */
    constructor ()
      ensures Valid() && !needToBuildWidgets && builds == 0
      ensures toInspect.None? && path.None? && inspectorConfig == 0 && inspector.None?
      ensures layoutClass == Some(DEFAULT_LAYOUT_CLASS) && !hasLayout && parameters == map[] && !readOnly
      ensures existingViews.None? && children == [] && layoutCalls == []
    {
      toInspect, path, inspectorConfig, inspector := None, None, 0, None;
      layoutClass, hasLayout, parameters, needToBuildWidgets := Some(DEFAULT_LAYOUT_CLASS), false, map[], false;
      existingViews, existingViewsUnused, facets, readOnly := None, {}, map[], false;
      children, layoutCalls, builds, redraws := [], [], 0, 0;
    }

    /**
     * The metawidget inflated from an XML element with the given attributes
     * and child views: the parameter attributes, the inspector configuration,
     * the layout class and the read-only flag.
     */
    constructor FromXml(attributes: seq<XmlAttribute>, childViews: seq<View>, niceForName: string -> Option<string>)
      ensures Valid() && !needToBuildWidgets && builds == 0
      ensures parameters == XmlParameters(attributes)
      ensures inspectorConfig == AttributeResourceValue(attributes, "inspectorConfig", 0)
      ensures layoutClass == XmlLayoutClass(attributes, niceForName)
      ensures readOnly == XmlReadOnly(attributes)
      ensures toInspect.None? && path.None? && inspector.None? && !hasLayout
      ensures existingViews.None? && children == childViews && layoutCalls == []
    {
      var found := ReadParameters(attributes);
      var layout := AttributeValue(attributes, "layout");
      var readOnlyText := AttributeValue(attributes, "readOnly");
      toInspect, path, inspector := None, None, None;
      inspectorConfig := AttributeResourceValue(attributes, "inspectorConfig", 0);
      layoutClass := if layout.Some? && layout.value != "" then niceForName(layout.value) else Some(DEFAULT_LAYOUT_CLASS);
      hasLayout, parameters, needToBuildWidgets := false, found, false;
      existingViews, existingViewsUnused, facets := None, {}, map[];
      readOnly := readOnlyText.Some? && readOnlyText.value != "" && ParseBoolean(readOnlyText.value);
      children, layoutCalls, builds, redraws := childViews, [], 0, 0;
    }

    /** The loop of the XML constructor: setParameter for each parameter attribute, in order. */
    static method ReadParameters(attributes: seq<XmlAttribute>) returns (found: map<string, ParameterValue>)
      ensures found == XmlParameters(attributes)
    {
      found := map[];
      var i := 0;
      while i < |attributes|
        invariant 0 <= i <= |attributes|
        invariant found == XmlParameters(attributes[..i])
      {
        assert attributes[..i + 1][..i] == attributes[..i];
        var name := attributes[i].name;
        if StartsWith(name, PARAM_PREFIX) {
          var rest := name[|PARAM_PREFIX|..];
          if IsFirstLetterUppercase(rest) {
            var value := attributes[i].value;
            if StartsWith(value, "@") {
              found := found[LowercaseFirstLetter(rest) := ResourceId(attributes[i].resourceValue)];
            } else {
              found := found[LowercaseFirstLetter(rest) := Text(value)];
            }
          }
        }
        i := i + 1;
      }
      assert attributes[..i] == attributes;
    }

    /**
     * The nested metawidget made for a property: it takes the object,
     * inspector, inspector configuration, layout class and a copy of the
     * parameters of `metawidget`, but not its path.
     */
    constructor Nested(metawidget: AndroidMetawidget)
      ensures Valid() && !needToBuildWidgets && builds == 0
      ensures toInspect == metawidget.toInspect && inspector == metawidget.inspector
      ensures inspectorConfig == metawidget.inspectorConfig && layoutClass == metawidget.layoutClass
      ensures parameters == metawidget.parameters
      ensures path.None? && !hasLayout && !readOnly && existingViews.None? && children == [] && layoutCalls == []
    {
      toInspect, path, inspectorConfig, inspector := metawidget.toInspect, None, metawidget.inspectorConfig, metawidget.inspector;
      layoutClass, hasLayout, parameters, needToBuildWidgets := metawidget.layoutClass, false, metawidget.parameters, false;
      existingViews, existingViewsUnused, facets, readOnly := None, {}, map[], false;
      children, layoutCalls, builds, redraws := [], [], 0, 0;
    }

    // -------------------------------------------------------------------------
    // The dirty flag
    // -------------------------------------------------------------------------

    /** invalidateWidgets: marks the widgets for rebuilding and asks for a redraw, unless they already are. */
    method InvalidateWidgets()
      requires Valid()
      modifies this
      ensures Valid() && needToBuildWidgets && builds == old(builds)
      ensures redraws == old(redraws) + Count(!old(needToBuildWidgets))
      ensures toInspect == old(toInspect) && path == old(path) && inspectorConfig == old(inspectorConfig)
      ensures inspector == old(inspector) && layoutClass == old(layoutClass) && hasLayout == old(hasLayout)
      ensures parameters == old(parameters) && readOnly == old(readOnly) && children == old(children)
      ensures existingViews == old(existingViews) && existingViewsUnused == old(existingViewsUnused)
      ensures facets == old(facets) && layoutCalls == old(layoutCalls)
    {
      if needToBuildWidgets {
        return;
      }
      needToBuildWidgets := true;
      redraws := redraws + 1;
    }

    /**
     * buildWidgets: hands one build to the mixin when the widgets are marked,
     * clearing the mark first; does nothing otherwise.
     */
    method BuildWidgets() returns (built: bool)
      requires Valid()
      modifies this
      ensures Valid() && !needToBuildWidgets
      ensures built <==> old(needToBuildWidgets)
      ensures builds == old(builds) + Count(built) && redraws == old(redraws)
      ensures toInspect == old(toInspect) && path == old(path) && inspectorConfig == old(inspectorConfig)
      ensures inspector == old(inspector) && layoutClass == old(layoutClass) && hasLayout == old(hasLayout)
      ensures parameters == old(parameters) && readOnly == old(readOnly) && children == old(children)
      ensures existingViews == old(existingViews) && existingViewsUnused == old(existingViewsUnused)
      ensures facets == old(facets) && layoutCalls == old(layoutCalls)
    {
      if !needToBuildWidgets {
        return false;
      }
      needToBuildWidgets := false;
      builds := builds + 1;
      built := true;
    }

    // -------------------------------------------------------------------------
    // Setters
    // -------------------------------------------------------------------------

    method SetPath(newPath: Option<string>)
      requires Valid()
      modifies this
      ensures Valid() && needToBuildWidgets && builds == old(builds)
      ensures path == newPath
      ensures toInspect == old(toInspect) && inspectorConfig == old(inspectorConfig) && inspector == old(inspector)
      ensures layoutClass == old(layoutClass) && parameters == old(parameters) && readOnly == old(readOnly)
      ensures hasLayout == old(hasLayout) && children == old(children) && layoutCalls == old(layoutCalls)
      ensures existingViews == old(existingViews) && existingViewsUnused == old(existingViewsUnused) && facets == old(facets)
    {
      path := newPath;
      InvalidateWidgets();
    }

    /**
     * setToInspect: a path that is null or names no property (it holds no
     * "/") is replaced by the class name of the new object; a nested path is
     * kept.
     */
    method SetToInspect(newToInspect: Option<Inspected>)
      requires Valid()
      modifies this
      ensures Valid() && needToBuildWidgets && builds == old(builds)
      ensures toInspect == newToInspect
      ensures newToInspect.Some? && (old(path).None? || '/' !in old(path).value) ==>
                path == Some(newToInspect.value.className)
      ensures newToInspect.None? || (old(path).Some? && '/' in old(path).value) ==> path == old(path)
      ensures inspectorConfig == old(inspectorConfig) && inspector == old(inspector)
      ensures layoutClass == old(layoutClass) && parameters == old(parameters) && readOnly == old(readOnly)
      ensures hasLayout == old(hasLayout) && children == old(children) && layoutCalls == old(layoutCalls)
      ensures existingViews == old(existingViews) && existingViewsUnused == old(existingViewsUnused) && facets == old(facets)
    {
      toInspect := newToInspect;
      if newToInspect.Some? && (path.None? || '/' !in path.value) {
        path := Some(newToInspect.value.className);
      }
      InvalidateWidgets();
    }

    /** setInspectorConfig: the configuration replaces any Inspector set before. */
    method SetInspectorConfig(newInspectorConfig: int)
      requires Valid()
      modifies this
      ensures Valid() && needToBuildWidgets && builds == old(builds)
      ensures inspectorConfig == newInspectorConfig && inspector.None?
      ensures toInspect == old(toInspect) && path == old(path)
      ensures layoutClass == old(layoutClass) && parameters == old(parameters) && readOnly == old(readOnly)
      ensures hasLayout == old(hasLayout) && children == old(children) && layoutCalls == old(layoutCalls)
      ensures existingViews == old(existingViews) && existingViewsUnused == old(existingViewsUnused) && facets == old(facets)
    {
      inspectorConfig := newInspectorConfig;
      inspector := None;
      InvalidateWidgets();
    }

    /** setInspector: the Inspector replaces any configuration set before. */
    method SetInspector(newInspector: Option<nat>)
      requires Valid()
      modifies this
      ensures Valid() && needToBuildWidgets && builds == old(builds)
      ensures inspector == newInspector && inspectorConfig == 0
      ensures toInspect == old(toInspect) && path == old(path)
      ensures layoutClass == old(layoutClass) && parameters == old(parameters) && readOnly == old(readOnly)
      ensures hasLayout == old(hasLayout) && children == old(children) && layoutCalls == old(layoutCalls)
      ensures existingViews == old(existingViews) && existingViewsUnused == old(existingViewsUnused) && facets == old(facets)
    {
      inspector := newInspector;
      inspectorConfig := 0;
      InvalidateWidgets();
    }

    /** setLayoutClass: the Layout is made again, from the new class, at the next build. */
    method SetLayoutClass(newLayoutClass: Option<string>)
      requires Valid()
      modifies this
      ensures Valid() && needToBuildWidgets && builds == old(builds)
      ensures layoutClass == newLayoutClass && !hasLayout
      ensures toInspect == old(toInspect) && path == old(path) && inspectorConfig == old(inspectorConfig)
      ensures inspector == old(inspector) && parameters == old(parameters) && readOnly == old(readOnly)
      ensures children == old(children) && layoutCalls == old(layoutCalls)
      ensures existingViews == old(existingViews) && existingViewsUnused == old(existingViewsUnused) && facets == old(facets)
    {
      layoutClass := newLayoutClass;
      hasLayout := false;
      InvalidateWidgets();
    }

    method SetReadOnly(newReadOnly: bool)
      requires Valid()
      modifies this
      ensures Valid() && needToBuildWidgets && builds == old(builds)
      ensures readOnly == newReadOnly
      ensures toInspect == old(toInspect) && path == old(path) && inspectorConfig == old(inspectorConfig)
      ensures inspector == old(inspector) && layoutClass == old(layoutClass) && parameters == old(parameters)
      ensures hasLayout == old(hasLayout) && children == old(children) && layoutCalls == old(layoutCalls)
      ensures existingViews == old(existingViews) && existingViewsUnused == old(existingViewsUnused) && facets == old(facets)
    {
      readOnly := newReadOnly;
      InvalidateWidgets();
    }

    /** getParameter: None for a parameter never set. */
    function GetParameter(name: string): (r: Option<ParameterValue>)
      reads this
      ensures r.Some? <==> name in parameters.Keys
      ensures r.Some? ==> r.value == parameters[name]
    {
      if name in parameters then Some(parameters[name]) else None
    }

    /** setParameter: the new value is read back, and every other parameter is unchanged. */
    method SetParameter(name: string, value: ParameterValue)
      modifies this
      ensures parameters == old(parameters)[name := value]
      ensures GetParameter(name) == Some(value)
      ensures forall other :: other != name ==> GetParameter(other) == old(GetParameter(other))
      ensures parameters.Keys == old(parameters.Keys) + {name}
      ensures toInspect == old(toInspect) && path == old(path) && inspectorConfig == old(inspectorConfig)
      ensures inspector == old(inspector) && layoutClass == old(layoutClass) && hasLayout == old(hasLayout)
      ensures needToBuildWidgets == old(needToBuildWidgets) && readOnly == old(readOnly) && children == old(children)
      ensures existingViews == old(existingViews) && existingViewsUnused == old(existingViewsUnused)
      ensures facets == old(facets) && layoutCalls == old(layoutCalls)
      ensures builds == old(builds) && redraws == old(redraws)
    {
      parameters := parameters[name := value];
    }

    // -------------------------------------------------------------------------
    // Building
    // -------------------------------------------------------------------------

    /**
     * startBuild: on the first build the children are sorted into facets and
     * existing views; every build removes the child views, makes all existing
     * views available for reuse and starts a new Layout. `thrown` is the
     * NullPointerException of a null layout class.
     */
    method StartBuild() returns (thrown: bool)
      requires Valid()
      modifies this
      ensures Valid()
      ensures old(existingViews).None? ==>
                existingViews == Some(ExistingViews(old(children))) && facets == Facets(old(children))
      ensures old(existingViews).Some? ==> existingViews == old(existingViews) && facets == old(facets)
      ensures existingViews.Some? && existingViewsUnused == existingViews.value
      ensures children == []
      ensures thrown <==> layoutClass.None?
      ensures hasLayout == (old(hasLayout) || !thrown)
      ensures layoutCalls == old(layoutCalls) + (if thrown then [] else [LayoutBegin])
      ensures toInspect == old(toInspect) && path == old(path) && inspectorConfig == old(inspectorConfig)
      ensures inspector == old(inspector) && layoutClass == old(layoutClass) && parameters == old(parameters)
      ensures needToBuildWidgets == old(needToBuildWidgets) && readOnly == old(readOnly)
      ensures builds == old(builds) && redraws == old(redraws)
    {
      if existingViews.None? {
        var views, found := SortChildren(children);
        existingViews := Some(views);
        facets := found;
      }
      children := [];
      existingViewsUnused := existingViews.value;
      thrown := layoutClass.None?;
      if !thrown {
        hasLayout := true;
        layoutCalls := layoutCalls + [LayoutBegin];
      }
    }

    /** The first build's loop over the children: facets by name, every other view kept as an existing view. */
    static method SortChildren(childViews: seq<View>) returns (views: set<View>, found: map<string, View>)
      ensures views == ExistingViews(childViews) && found == Facets(childViews)
    {
      views, found := {}, map[];
      var i := 0;
      while i < |childViews|
        invariant 0 <= i <= |childViews|
        invariant views == ExistingViews(childViews[..i]) && found == Facets(childViews[..i])
      {
        assert childViews[..i + 1][..i] == childViews[..i];
        var view := childViews[i];
        if view.facetName.Some? {
          found := found[view.facetName.value := view];
        } else {
          views := views + {view};
        }
        i := i + 1;
      }
      assert childViews[..i] == childViews;
    }

    /** addWidget: tags the view with the property's name and hands it to the Layout, if there is one. */
    method AddWidget(view: View, attributes: map<string, string>) returns (tagged: View)
      modifies this
      ensures tagged == view.(tag := Get(attributes, NAME))
      ensures layoutCalls == old(layoutCalls) + (if hasLayout then [LayoutChild(tagged, Some(attributes))] else [])
      ensures toInspect == old(toInspect) && path == old(path) && inspectorConfig == old(inspectorConfig)
      ensures inspector == old(inspector) && layoutClass == old(layoutClass) && hasLayout == old(hasLayout)
      ensures parameters == old(parameters) && needToBuildWidgets == old(needToBuildWidgets)
      ensures readOnly == old(readOnly) && children == old(children)
      ensures existingViews == old(existingViews) && existingViewsUnused == old(existingViewsUnused)
      ensures facets == old(facets) && builds == old(builds) && redraws == old(redraws)
    {
      tagged := view.(tag := Get(attributes, NAME));
      if hasLayout {
        layoutCalls := layoutCalls + [LayoutChild(tagged, Some(attributes))];
      }
    }

    /**
     * getOverridenWidget: an existing view not used yet in this build whose
     * tag is the property's name; it is then used, so no view is handed out
     * twice. None when the property has no name or no such view is left.
     */
    method GetOverridenWidget(attributes: map<string, string>) returns (view: Option<View>)
      requires Valid()
      modifies this
      ensures Valid()
      ensures view.Some? ==>
                view.value in old(existingViewsUnused) && view.value.tag == Get(attributes, NAME)
                && Get(attributes, NAME).Some?
                && existingViewsUnused == old(existingViewsUnused) - {view.value}
      ensures view.None? ==>
                existingViewsUnused == old(existingViewsUnused)
                && (Get(attributes, NAME).Some? ==>
                      forall v :: v in old(existingViewsUnused) ==> v.tag != Get(attributes, NAME))
      ensures view.Some? ==> view.value !in existingViewsUnused
      ensures toInspect == old(toInspect) && path == old(path) && inspectorConfig == old(inspectorConfig)
      ensures inspector == old(inspector) && layoutClass == old(layoutClass) && hasLayout == old(hasLayout)
      ensures parameters == old(parameters) && needToBuildWidgets == old(needToBuildWidgets)
      ensures readOnly == old(readOnly) && children == old(children) && existingViews == old(existingViews)
      ensures facets == old(facets) && layoutCalls == old(layoutCalls)
      ensures builds == old(builds) && redraws == old(redraws)
    {
      var childName := Get(attributes, NAME);
      if childName.None? {
        return None;
      }
      view := None;
      var remaining := existingViewsUnused;
      while remaining != {}
        invariant remaining <= existingViewsUnused
        invariant forall v :: v in existingViewsUnused && v !in remaining ==> v.tag != childName
        decreases |remaining|
      {
        var candidate :| candidate in remaining;
        if candidate.tag == childName {
          view := Some(candidate);
          break;
        }
        remaining := remaining - {candidate};
      }
      if view.Some? {
        existingViewsUnused := existingViewsUnused - {view.value};
      }
    }

    /**
     * endBuild: every existing view left unused is handed to the Layout, with
     * null attributes, and the Layout is ended. The order of a hash set is
     * not specified: `laidOut` is the order taken, each unused view once.
     */
    method EndBuild() returns (laidOut: seq<View>)
      modifies this
      ensures hasLayout ==>
                |laidOut| == |existingViewsUnused|
                && (forall v :: v in laidOut <==> v in existingViewsUnused)
                && layoutCalls == old(layoutCalls) + UnusedChildCalls(laidOut) + [LayoutEnd]
      ensures !hasLayout ==> laidOut == [] && layoutCalls == old(layoutCalls)
      ensures toInspect == old(toInspect) && path == old(path) && inspectorConfig == old(inspectorConfig)
      ensures inspector == old(inspector) && layoutClass == old(layoutClass) && hasLayout == old(hasLayout)
      ensures parameters == old(parameters) && needToBuildWidgets == old(needToBuildWidgets)
      ensures readOnly == old(readOnly) && children == old(children) && existingViews == old(existingViews)
      ensures existingViewsUnused == old(existingViewsUnused) && facets == old(facets)
      ensures builds == old(builds) && redraws == old(redraws)
    {
      laidOut := [];
      if !hasLayout {
        return;
      }
      laidOut := InSomeOrder(existingViewsUnused);
      layoutCalls := layoutCalls + UnusedChildCalls(laidOut) + [LayoutEnd];
    }

    /** The iteration over a hash set: each element once, in an order the set does not specify. */
    static method InSomeOrder(views: set<View>) returns (ordered: seq<View>)
      ensures |ordered| == |views|
      ensures forall v :: v in ordered <==> v in views
    {
      ordered := [];
      var remaining := views;
      while remaining != {}
        invariant remaining <= views
        invariant forall v :: v in ordered <==> v in views && v !in remaining
        invariant |ordered| + |remaining| == |views|
        decreases |remaining|
      {
        var view :| view in remaining;
        ordered := ordered + [view];
        remaining := remaining - {view};
      }
    }

    /**
     * initMetawidget, with the mixin's part: the nested metawidget inspects
     * the property at this path + "/" + its name, on the same object, takes
     * the property's read-only flag and is built once at once.
     */
    method InitMetawidget(metawidget: AndroidMetawidget, attributes: map<string, string>, propertyReadOnly: bool)
      requires metawidget != this && metawidget.Valid()
      modifies metawidget
      ensures metawidget.Valid() && !metawidget.needToBuildWidgets
      ensures metawidget.path == Some(ConcatForm(path) + SEPARATOR_FORWARD_SLASH + ConcatForm(Get(attributes, NAME)))
      ensures metawidget.toInspect == toInspect && metawidget.readOnly == propertyReadOnly
      ensures metawidget.builds == old(metawidget.builds) + 1
      ensures metawidget.inspector == old(metawidget.inspector) && metawidget.inspectorConfig == old(metawidget.inspectorConfig)
      ensures metawidget.layoutClass == old(metawidget.layoutClass) && metawidget.parameters == old(metawidget.parameters)
    {
      var nestedPath := ConcatForm(path) + SEPARATOR_FORWARD_SLASH + ConcatForm(Get(attributes, NAME));
      metawidget.SetPath(Some(nestedPath));
      assert nestedPath[|ConcatForm(path)|] == '/';
      metawidget.SetToInspect(toInspect);
      metawidget.SetReadOnly(propertyReadOnly);
      var built := metawidget.BuildWidgets();
    }
  }
}
