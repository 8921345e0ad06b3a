/** Element editor actions (src/controllers/ElementsController.php): the
    element selector modal's sources and flags, resolving the element being
    edited, the table attributes returned after a save, and the editor HUD
    response. */
module Elements {
  import opened Php
  import opened PhpArrays
  import opened Http

  /** A request parameter: a string, or an array of strings. */
  datatype Param = Text(s: string) | List(items: seq<string>)

  // ---------------------------------------------------------------------
  // actionGetModalBody

  datatype SiteMenu = Auto | Flag(show: bool)

  /** `(bool)$param` */
  predicate ParamTruthy(p: Param) {
    match p
    case Text(s) => Truthy(s)
    case List(items) => items != []
  }

  /** `showSiteMenu`, defaulting to 'auto': stays 'auto' only when it is
      exactly that string, any other value becomes a boolean. */
  function ShowSiteMenu(param: Option<Param>): (m: SiteMenu)
    ensures m == Auto <==> param.None? || param.value == Text("auto")
    ensures m.Flag? ==> m.show == ParamTruthy(param.value)
  {
    if param.None? || param.value == Text("auto") then Auto
    else Flag(ParamTruthy(param.value))
  }

  /** A source of the element index; `nested` lists its child sources (a
      missing entry is an empty list). */
  datatype Source = Source(name: string, nested: seq<string>)

  /** The assignments `$sources[$key] = $source` for the keys that resolve. */
  function FoundPairs(keys: seq<string>, found: map<string, Source>): seq<Entry<string, Source>> {
    if keys == [] then []
    else
      var k := keys[|keys| - 1];
      FoundPairs(keys[..|keys| - 1], found) + (if k in found then [Entry(k, found[k])] else [])
  }

  /** The requested keys that resolve, in request order. */
  function FoundKeys(keys: seq<string>, found: map<string, Source>): (ks: seq<string>)
    ensures forall k :: k in ks <==> k in keys && k in found
  {
    if keys == [] then []
    else
      var k := keys[|keys| - 1];
      var init := FoundKeys(keys[..|keys| - 1], found);
      assert keys == keys[..|keys| - 1] + [k];
      init + (if k in found then [k] else [])
  }

  /** Looks up every requested key and keeps those that resolve. */
  method FilterSources(keys: seq<string>, found: map<string, Source>) returns (sources: OrderedMap<string, Source>)
    ensures sources == FromPairs(FoundPairs(keys, found))
  {
    sources := [];
    for i := 0 to |keys|
      invariant sources == FromPairs(FoundPairs(keys[..i], found))
    {
      assert keys[..i + 1][..i] == keys[..i];
      var key := keys[i];
      ghost var ps := FoundPairs(keys[..i], found);
      if key in found {
        assert FoundPairs(keys[..i + 1], found) == ps + [Entry(key, found[key])];
        assert (ps + [Entry(key, found[key])])[..|ps|] == ps;
        sources := Put(sources, key, found[key]);
      } else {
        assert FoundPairs(keys[..i + 1], found) == ps;
      }
    }
    assert keys[..|keys|] == keys;
  }

  lemma {:induction false} FoundPairsKeys(keys: seq<string>, found: map<string, Source>)
    ensures Keys(FoundPairs(keys, found)) == FoundKeys(keys, found)
  {
    if keys != [] {
      var k := keys[|keys| - 1];
      var ps := FoundPairs(keys[..|keys| - 1], found);
      FoundPairsKeys(keys[..|keys| - 1], found);
      if k in found {
        assert Keys(ps + [Entry(k, found[k])]) == Keys(ps) + [k];
      }
    }
  }

  lemma {:induction false} FoundPairsLast(keys: seq<string>, found: map<string, Source>, k: string)
    ensures LastValue(FoundPairs(keys, found), k) == if k in keys && k in found then Some(found[k]) else None
  {
    if keys != [] {
      var last := keys[|keys| - 1];
      var init := keys[..|keys| - 1];
      var ps := FoundPairs(init, found);
      FoundPairsLast(init, found, k);
      assert keys == init + [last];
      if last in found {
        assert FoundPairs(keys, found) == ps + [Entry(last, found[last])];
        assert (ps + [Entry(last, found[last])])[..|ps|] == ps;
      } else {
        assert FoundPairs(keys, found) == ps;
      }
    }
  }

  /** The filtered sources hold exactly the requested keys that resolve,
      each once, in the order they were first requested, each with the
      source it resolved to. */
  lemma FilteredSources(keys: seq<string>, found: map<string, Source>, k: string)
    ensures Keys(FromPairs(FoundPairs(keys, found))) == Dedup(FoundKeys(keys, found))
    ensures Get(FromPairs(FoundPairs(keys, found)), k) == if k in keys && k in found then Some(found[k]) else None
  {
    FromPairsOrder(FoundPairs(keys, found));
    FoundPairsKeys(keys, found);
    FromPairsGet(FoundPairs(keys, found), k);
    FoundPairsLast(keys, found, k);
  }

  /** A PHP list as an array: keyed by position. */
  function ListArray<V>(vs: seq<V>): (m: OrderedMap<string, V>)
    ensures Values(m) == vs
  {
    seq(|vs|, i requires 0 <= i < |vs| => Entry(IntText(i), vs[i]))
  }

  /** `showSidebar`: for a single source, whether it has nested sources;
      otherwise whether there are any sources at all. */
  function ShowSidebar(sources: OrderedMap<string, Source>): bool {
    if |sources| == 1 then sources[0].value.nested != [] else sources != []
  }

  /** The sidebar is hidden exactly when there are no sources or a single
      source without nested ones. */
  lemma ShowSidebarHidden(sources: OrderedMap<string, Source>)
    ensures !ShowSidebar(sources) <==> sources == [] || (|sources| == 1 && Values(sources)[0].nested == [])
  {
  }

  /** The variables of the `_elements/modalbody` template. */
  datatype ModalBody = ModalBody(context: string, elementType: string, sources: OrderedMap<string, Source>,
                                 showSidebar: bool, showSiteMenu: SiteMenu)

  /** The modal body: the requested sources that resolve when an array of
      keys is given, else all sources of the element type. */
  method GetModalBody(sourceKeys: Option<Param>, elementType: string, context: string,
                      showSiteMenu: Option<Param>, found: map<string, Source>, allSources: seq<Source>)
    returns (body: ModalBody)
    ensures body.sources == if sourceKeys.Some? && sourceKeys.value.List?
                            then FromPairs(FoundPairs(sourceKeys.value.items, found))
                            else ListArray(allSources)
    ensures body.showSidebar == ShowSidebar(body.sources)
    ensures body.showSiteMenu == ShowSiteMenu(showSiteMenu)
    ensures body.context == context && body.elementType == elementType
  {
    var menu := ShowSiteMenu(showSiteMenu);
    var sources: OrderedMap<string, Source>;
    if sourceKeys.Some? && sourceKeys.value.List? {
      sources := FilterSources(sourceKeys.value.items, found);
    } else {
      sources := ListArray(allSources);
    }
    body := ModalBody(context, elementType, sources, ShowSidebar(sources), menu);
  }

  // ---------------------------------------------------------------------
  // _getEditorElement

  /** An element: its class and the properties set on it by name. */
  class Element {
    const elementType: string
    var props: map<string, Scalar>

    /** `new $elementType()` */
    constructor(elementType: string)
      ensures this.elementType == elementType && props == map[]
    {
      this.elementType := elementType;
      props := map[];
    }

    /** `$element->$name`, null when unset. */
    function Prop(name: string): Scalar
      reads this
    {
      if name in props then props[name] else Null
    }
  }

  /** The posted body parameters the editor reads. */
  datatype EditorRequest = EditorRequest(elementId: Option<int>, siteId: Option<int>,
                                         elementType: Option<string>, attributes: map<string, Scalar>)

  /** What the editor consults of the rest of the system. */
  datatype Environment = Environment(
    currentSiteId: int,
    typeById: map<int, string>,        // getElementTypeById
    elementClasses: set<string>,       // classes implementing ElementInterface
    localizedTypes: set<string>,       // types whose isLocalized() is true
    isMultiSite: bool,
    allSiteIds: seq<int>,              // getAllSiteIds, in site order
    permissions: set<string>)          // permission names the user holds

  /** `getBodyParam('siteId') ?: currentSite->id` */
  function RequestSiteId(req: EditorRequest, env: Environment): int {
    if req.siteId.Some? && req.siteId.value != 0 then req.siteId.value else env.currentSiteId
  }

  /** The permission name `'editSite:'.$siteId`. */
  function SitePermission(siteId: Scalar): string {
    "editSite:" + ScalarText(siteId)
  }

  /** The element type: posted, else looked up from the posted ID; it must
      be given or found, and must be an element class. */
  function ResolveElementType(req: EditorRequest, env: Environment): (r: Result<string>)
    ensures r.Ok? ==> r.value in env.elementClasses
    ensures r.Ok? && req.elementType.Some? ==> r.value == req.elementType.value
    ensures r.Ok? && req.elementType.None? ==>
              req.elementId.Some? && req.elementId.value in env.typeById && env.typeById[req.elementId.value] == r.value
    ensures (req.elementType.None? && (req.elementId.None? || req.elementId.value !in env.typeById)) ==>
              r == Fail(BadRequest(MissingParam))
    ensures r.Fail? ==> r.error.BadRequest?
    ensures req.elementType.Some? ==>
              r == if req.elementType.value in env.elementClasses then Ok(req.elementType.value)
                   else Fail(BadRequest(req.elementType.value))
    ensures req.elementType.None? && req.elementId.Some? && req.elementId.value in env.typeById ==>
              var looked := env.typeById[req.elementId.value];
              r == if looked in env.elementClasses then Ok(looked) else Fail(BadRequest(looked))
  {
    var t :=
      if req.elementType.Some? then req.elementType
      else if req.elementId.Some? && req.elementId.value in env.typeById then Some(env.typeById[req.elementId.value])
      else None;
    if t.None? then Fail(BadRequest(MissingParam))
    else if t.value !in env.elementClasses then Fail(BadRequest(t.value))
    else Ok(t.value)
  }

  predicate Qualifies(siteId: int, supported: seq<int>, permissions: set<string>) {
    siteId in supported && SitePermission(Int(siteId)) in permissions
  }

  /** The first site, in site order, that the element supports and the
      user may edit. */
  function FirstPermittedSite(allSiteIds: seq<int>, supported: seq<int>, permissions: set<string>): (r: Option<int>)
    ensures r.Some? ==> Qualifies(r.value, supported, permissions)
    ensures r.Some? ==> exists i :: 0 <= i < |allSiteIds| && allSiteIds[i] == r.value
                          && forall j :: 0 <= j < i ==> !Qualifies(allSiteIds[j], supported, permissions)
    ensures r.None? <==> forall i :: 0 <= i < |allSiteIds| ==> !Qualifies(allSiteIds[i], supported, permissions)
  {
    if allSiteIds == [] then None
    else if Qualifies(allSiteIds[0], supported, permissions) then Some(allSiteIds[0])
    else
      var rest := FirstPermittedSite(allSiteIds[1..], supported, permissions);
      if rest.Some? then
        var i :| 0 <= i < |allSiteIds[1..]| && allSiteIds[1..][i] == rest.value
                 && forall j :: 0 <= j < i ==> !Qualifies(allSiteIds[1..][j], supported, permissions);
        assert allSiteIds[i + 1] == rest.value;
        rest
      else rest
  }

  /** The loop over all site IDs that stops at the first one qualifying. */
  method FindEditableSite(allSiteIds: seq<int>, supported: seq<int>, permissions: set<string>)
    returns (newSiteId: Option<int>)
    ensures newSiteId.Some? ==> newSiteId.value in allSiteIds && Qualifies(newSiteId.value, supported, permissions)
    ensures newSiteId.None? <==> forall i :: 0 <= i < |allSiteIds| ==> !Qualifies(allSiteIds[i], supported, permissions)
    ensures newSiteId == FirstPermittedSite(allSiteIds, supported, permissions)
  {
    newSiteId := None;
    var i := 0;
    while i < |allSiteIds|
      invariant 0 <= i <= |allSiteIds|
      invariant forall j :: 0 <= j < i ==> !Qualifies(allSiteIds[j], supported, permissions)
      invariant FirstPermittedSite(allSiteIds, supported, permissions) == FirstPermittedSite(allSiteIds[i..], supported, permissions)
    {
      if Qualifies(allSiteIds[i], supported, permissions) {
        newSiteId := Some(allSiteIds[i]);
        break;
      }
      assert allSiteIds[i..][1..] == allSiteIds[i + 1..];
      i := i + 1;
    }
  }

  /** Whether the element's own site must be replaced: a localized type on a
      multi-site install whose site the user may not edit. */
  predicate NeedsOtherSite(env: Environment, elementType: string, siteId: Scalar) {
    env.isMultiSite && elementType in env.localizedTypes && SitePermission(siteId) !in env.permissions
  }

  /** Every stored element is an instance of the type it is looked up by. */
  predicate StoreTyped(elements: map<(int, string, int), Element>) {
    forall key :: key in elements ==> elements[key].elementType == key.1
  }

  /** The `siteId` the element carries before any site switch: the loaded
      element's, or null for a new one. */
  function InitialSiteId(req: EditorRequest, env: Environment, elements: map<(int, string, int), Element>): Scalar
    reads elements.Values
  {
    var t := ResolveElementType(req, env);
    if t.Ok? && req.elementId.Some? && (req.elementId.value, t.value, RequestSiteId(req, env)) in elements
    then elements[(req.elementId.value, t.value, RequestSiteId(req, env))].Prop("siteId")
    else Null
  }

  /** The site the element ends up in: a site the user may edit when the
      initial one needs replacing, else the requested one. */
  function TargetSite(req: EditorRequest, env: Environment, supportedSiteIds: seq<int>, initialSiteId: Scalar): Option<int> {
    var t := ResolveElementType(req, env);
    if t.Ok? && NeedsOtherSite(env, t.value, initialSiteId)
    then FirstPermittedSite(env.allSiteIds, supportedSiteIds, env.permissions)
    else Some(RequestSiteId(req, env))
  }

  const CannotEditElement := "The user doesn’t have permission to edit this element"

  /** Resolves the element being edited: its type, the element itself
      (loaded or new), a site the user may edit, the posted attributes with
      the resolved site, and a final editability check. */
  method EditorElement(req: EditorRequest, env: Environment, elements: map<(int, string, int), Element>,
                       supportedSiteIds: seq<int>, isEditable: map<string, Scalar> -> bool)
    returns (r: Result<Element>, ghost resolved: Element?)
    requires StoreTyped(elements)
    modifies elements.Values
    ensures ResolveElementType(req, env).Fail? ==> r == Fail(ResolveElementType(req, env).error)
    ensures ResolveElementType(req, env).Ok? && req.elementId.Some?
            && (req.elementId.value, ResolveElementType(req, env).value, RequestSiteId(req, env)) !in elements ==>
              r == Fail(BadRequest("No element exists with the ID " + IntText(req.elementId.value)))
    ensures ResolveElementType(req, env).Ok?
            && (req.elementId.None? || (req.elementId.value, ResolveElementType(req, env).value, RequestSiteId(req, env)) in elements)
            && TargetSite(req, env, supportedSiteIds, old(InitialSiteId(req, env, elements))).None? ==>
              r == Fail(Forbidden(CannotEditElement))
    ensures r == Fail(NullDereference) ==>
              req.elementId.Some? && ResolveElementType(req, env).Ok?
              && TargetSite(req, env, supportedSiteIds, old(InitialSiteId(req, env, elements))).Some?
              && (req.elementId.value, ResolveElementType(req, env).value,
                  TargetSite(req, env, supportedSiteIds, old(InitialSiteId(req, env, elements))).value) !in elements
    ensures var t := ResolveElementType(req, env);
            var site := TargetSite(req, env, supportedSiteIds, old(InitialSiteId(req, env, elements)));
            (t.Ok? && req.elementId.Some? && (req.elementId.value, t.value, RequestSiteId(req, env)) in elements
             && site.Some? && (req.elementId.value, t.value, site.value) !in elements)
            ==> r == Fail(NullDereference)
    ensures var t := ResolveElementType(req, env);
            var site := TargetSite(req, env, supportedSiteIds, old(InitialSiteId(req, env, elements)));
            (t.Ok? && site.Some?
             && (req.elementId.Some? ==> (req.elementId.value, t.value, RequestSiteId(req, env)) in elements
                                         && (req.elementId.value, t.value, site.value) in elements))
            ==>
              resolved != null
              && (req.elementId.Some? ==> resolved == elements[(req.elementId.value, t.value, site.value)])
              && (req.elementId.None? ==> fresh(resolved) && resolved.elementType == t.value)
              && resolved.props == (if req.elementId.Some? then old(resolved.props) else map[])
                                   + req.attributes["siteId" := Int(site.value)]
              && (if isEditable(resolved.props) then r.Ok? && r.value == resolved
                  else r == Fail(Forbidden(CannotEditElement)))
    ensures r.Ok? ==> ResolveElementType(req, env).Ok? && r.value.elementType == ResolveElementType(req, env).value
    ensures r.Ok? ==>
              var siteId := TargetSite(req, env, supportedSiteIds, old(InitialSiteId(req, env, elements)));
              siteId.Some? && r.value.Prop("siteId") == Int(siteId.value)
    ensures r.Ok? && req.elementId.Some? ==>
              (req.elementId.value, r.value.elementType, r.value.Prop("siteId").i) in elements
              && r.value == elements[(req.elementId.value, r.value.elementType, r.value.Prop("siteId").i)]
    ensures r.Ok? ==> forall k :: k in req.attributes && k != "siteId" ==> r.value.Prop(k) == req.attributes[k]
    ensures r.Ok? ==> isEditable(r.value.props)
    ensures r.Ok? && req.elementId.None? ==> fresh(r.value)
    ensures r.Ok? ==> forall e :: e in elements.Values && e != r.value ==> unchanged(e)
    ensures r.Fail? && r.error.BadRequest? ==> forall e :: e in elements.Values ==> unchanged(e)
    ensures forall e :: e in elements.Values && e != resolved ==> unchanged(e)
  {
    resolved := null;
    var siteId := RequestSiteId(req, env);
    var typeResult := ResolveElementType(req, env);
    if typeResult.Fail? {
      return Fail(typeResult.error), resolved;
    }
    var elementType := typeResult.value;
    var element: Element;
    if req.elementId.Some? {
      if (req.elementId.value, elementType, siteId) !in elements {
        return Fail(BadRequest("No element exists with the ID " + IntText(req.elementId.value))), resolved;
      }
      element := elements[(req.elementId.value, elementType, siteId)];
    } else {
      element := new Element(elementType);
    }
    if NeedsOtherSite(env, elementType, element.Prop("siteId")) {
      var newSiteId := FindEditableSite(env.allSiteIds, supportedSiteIds, env.permissions);
      if newSiteId.None? {
        return Fail(Forbidden(CannotEditElement)), resolved;
      }
      siteId := newSiteId.value;
      if req.elementId.Some? {
        if (req.elementId.value, elementType, siteId) !in elements {
          return Fail(NullDereference), resolved;
        }
        element := elements[(req.elementId.value, elementType, siteId)];
      } else {
        element.props := element.props["siteId" := Int(siteId)];
      }
    }
    var attributes := req.attributes["siteId" := Int(siteId)];
    element.props := element.props + attributes;
    resolved := element;
    if !isEditable(element.props) {
      return Fail(Forbidden(CannotEditElement)), resolved;
    }
    r := Ok(element);
  }

  // ---------------------------------------------------------------------
  // actionSaveElement: table attributes

  /** `$response['tableAttributes'][$key] = $html` for each attribute key. */
  function CellPairs(keys: seq<string>, cellHtml: string -> string): seq<Entry<string, string>> {
    if keys == [] then []
    else CellPairs(keys[..|keys| - 1], cellHtml) + [Entry(keys[|keys| - 1], cellHtml(keys[|keys| - 1]))]
  }

  /** The table attributes of the saved element, the first one dropped;
      absent when no source key is posted or nothing is left. */
  method TableAttributesHtml(sourceKey: Option<string>, attributes: seq<string>, cellHtml: string -> string)
    returns (r: Option<OrderedMap<string, string>>)
    ensures r.Some? <==> OptionTruthy(sourceKey) && |attributes| > 1
    ensures r.Some? ==> r.value == FromPairs(CellPairs(attributes[1..], cellHtml))
  {
    r := None;
    if OptionTruthy(sourceKey) {
      var rest := if attributes == [] then [] else attributes[1..];
      var cells: OrderedMap<string, string> := [];
      for i := 0 to |rest|
        invariant cells == FromPairs(CellPairs(rest[..i], cellHtml))
      {
        assert rest[..i + 1][..i] == rest[..i];
        ghost var ps := CellPairs(rest[..i], cellHtml);
        assert (ps + [Entry(rest[i], cellHtml(rest[i]))])[..|ps|] == ps;
        cells := Put(cells, rest[i], cellHtml(rest[i]));
      }
      assert rest[..|rest|] == rest;
      if rest != [] {
        r := Some(cells);
      }
    }
  }

  lemma {:induction false} CellPairsKeys(keys: seq<string>, cellHtml: string -> string)
    ensures Keys(CellPairs(keys, cellHtml)) == keys
  {
    if keys != [] {
      CellPairsKeys(keys[..|keys| - 1], cellHtml);
      assert keys == keys[..|keys| - 1] + [keys[|keys| - 1]];
    }
  }

  lemma {:induction false} CellPairsLast(keys: seq<string>, cellHtml: string -> string, k: string)
    ensures LastValue(CellPairs(keys, cellHtml), k) == if k in keys then Some(cellHtml(k)) else None
  {
    if keys != [] {
      var init := keys[..|keys| - 1];
      var ps := CellPairs(init, cellHtml);
      var e := Entry(keys[|keys| - 1], cellHtml(keys[|keys| - 1]));
      CellPairsLast(init, cellHtml, k);
      assert keys == init + [keys[|keys| - 1]];
      assert (ps + [e])[..|ps|] == ps;
    }
  }

  /** Every attribute after the first gets its cell HTML, keyed by its
      attribute key, in order; the first attribute appears only if its key
      comes again later. */
  lemma TableAttributesContents(attributes: seq<string>, cellHtml: string -> string, k: string)
    requires |attributes| > 1
    ensures Keys(FromPairs(CellPairs(attributes[1..], cellHtml))) == Dedup(attributes[1..])
    ensures Get(FromPairs(CellPairs(attributes[1..], cellHtml)), k) ==
              if k in attributes[1..] then Some(cellHtml(k)) else None
  {
    FromPairsOrder(CellPairs(attributes[1..], cellHtml));
    CellPairsKeys(attributes[1..], cellHtml);
    FromPairsGet(CellPairs(attributes[1..], cellHtml), k);
    CellPairsLast(attributes[1..], cellHtml, k);
  }

  // ---------------------------------------------------------------------
  // _getEditorHtmlResponse

  datatype SiteOption = SiteOption(id: int, name: string)

  /** The `sites` entry of the response: not set, null, or a list. */
  datatype SitesEntry = SitesAbsent | SitesNull | SitesList(options: seq<SiteOption>)

  datatype EditorResponse = EditorResponse(
    siteIds: Option<seq<int>>,   // the `siteIds` entry, set to an empty array
    sites: SitesEntry,
    siteId: Scalar,
    html: string,
    headHtml: string,
    footHtml: string)

  /** One `{id, name}` option per editable site, in order. */
  method SiteOptions(siteIds: seq<int>, siteName: int -> string) returns (options: seq<SiteOption>)
    ensures |options| == |siteIds|
    ensures forall i :: 0 <= i < |siteIds| ==> options[i] == SiteOption(siteIds[i], siteName(siteIds[i]))
  {
    options := [];
    for i := 0 to |siteIds|
      invariant |options| == i
      invariant forall j :: 0 <= j < i ==> options[j] == SiteOption(siteIds[j], siteName(siteIds[j]))
    {
      options := options + [SiteOption(siteIds[i], siteName(siteIds[i]))];
    }
  }

  function HiddenInput(name: string, value: string): string {
    "<input type=\"hidden\" name=\"" + name + "\" value=\"" + value + "\">"
  }

  /** The hidden inputs at the head of the editor HTML, as (name, value). */
  function EditorInputs(namespace: string, elementId: Scalar, siteId: Scalar): (inputs: seq<(string, string)>)
    ensures |inputs| == 1 + (if elementId != Null then 1 else 0) + (if siteId != Null then 1 else 0)
    ensures inputs[0] == ("namespace", namespace)
    ensures forall i, j :: 0 <= i < |inputs| && 0 <= j < |inputs| && inputs[i].0 == "elementId" && inputs[j].0 == "siteId"
              ==> i < j
    ensures (exists i :: 0 <= i < |inputs| && inputs[i].0 == "elementId") <==> elementId != Null
    ensures (exists i :: 0 <= i < |inputs| && inputs[i].0 == "siteId") <==> siteId != Null
    ensures forall i :: 0 <= i < |inputs| && inputs[i].0 == "elementId" ==> inputs[i].1 == ScalarText(elementId)
    ensures forall i :: 0 <= i < |inputs| && inputs[i].0 == "siteId" ==> inputs[i].1 == ScalarText(siteId)
  {
    var withId := [("namespace", namespace)] + (if elementId != Null then [("elementId", ScalarText(elementId))] else []);
    var inputs := withId + (if siteId != Null then [("siteId", ScalarText(siteId))] else []);
    assert elementId != Null ==> inputs[1].0 == "elementId";
    assert siteId != Null ==> inputs[|inputs| - 1].0 == "siteId";
    inputs
  }

  /** The rendered items, concatenated in order. */
  function Concat<T>(items: seq<T>, render: T -> string): string {
    if items == [] then "" else render(items[0]) + Concat(items[1..], render)
  }

  /** Appending an item appends its rendering, as `.=` does. */
  lemma {:induction false} ConcatAppend<T>(items: seq<T>, item: T, render: T -> string)
    ensures Concat(items + [item], render) == Concat(items, render) + render(item)
  {
    if items == [] {
      assert [item][1..] == [];
    } else {
      assert (items + [item])[0] == items[0];
      assert (items + [item])[1..] == items[1..] + [item];
      ConcatAppend(items[1..], item, render);
    }
  }

  function InputHtml(input: (string, string)): string {
    HiddenInput(input.0, input.1)
  }

  function RenderInputs(inputs: seq<(string, string)>): string {
    Concat(inputs, InputHtml)
  }

  /** Builds the editor HTML with `.=`: the namespace input, the element ID
      and site ID inputs when set, then the namespaced editor in a meta div. */
  method EditorHtml(namespace: string, elementId: Scalar, siteId: Scalar, editorHtml: string) returns (html: string)
    ensures html == RenderInputs(EditorInputs(namespace, elementId, siteId)) + "<div class=\"meta\">" + editorHtml + "</div>"
  {
    ghost var inputs: seq<(string, string)> := [("namespace", namespace)];
    html := HiddenInput("namespace", namespace);
    assert html == RenderInputs(inputs) by {
      assert inputs[1..] == [];
      assert Concat(inputs, InputHtml) == InputHtml(inputs[0]) + Concat(inputs[1..], InputHtml);
    }
    if elementId != Null {
      ConcatAppend(inputs, ("elementId", ScalarText(elementId)), InputHtml);
      inputs := inputs + [("elementId", ScalarText(elementId))];
      html := html + HiddenInput("elementId", ScalarText(elementId));
    }
    if siteId != Null {
      ConcatAppend(inputs, ("siteId", ScalarText(siteId)), InputHtml);
      inputs := inputs + [("siteId", ScalarText(siteId))];
      html := html + HiddenInput("siteId", ScalarText(siteId));
    }
    assert inputs == EditorInputs(namespace, elementId, siteId);
    html := html + "<div class=\"meta\">" + editorHtml + "</div>";
  }

  /** The editor HTML always opens with the namespace input. */
  lemma EditorHtmlStartsWithNamespace(namespace: string, elementId: Scalar, siteId: Scalar, editorHtml: string)
    ensures var html := RenderInputs(EditorInputs(namespace, elementId, siteId)) + "<div class=\"meta\">" + editorHtml + "</div>";
            var head := HiddenInput("namespace", namespace);
            |head| <= |html| && html[..|head|] == head
  {
    var inputs := EditorInputs(namespace, elementId, siteId);
    var head := HiddenInput("namespace", namespace);
    var rest := RenderInputs(inputs[1..]) + "<div class=\"meta\">" + editorHtml + "</div>";
    assert RenderInputs(inputs) == head + RenderInputs(inputs[1..]);
    assert RenderInputs(inputs) + "<div class=\"meta\">" + editorHtml + "</div>" == head + rest;
    assert (head + rest)[..|head|] == head;
  }

  const NoEditableSite := "User not permitted to edit content in any of the sites supported by this element"

  /** The editor response: refused without an editable site; the site list
      only when asked for, as a list when there are several sites and null
      otherwise; and the editor HTML. */
  method EditorHtmlResponse(element: Element, includeSites: bool, siteIds: seq<int>, siteName: int -> string,
                            randomSuffix: string, editorHtml: string, headHtml: string, footHtml: string)
    returns (r: Result<EditorResponse>)
    ensures siteIds == [] <==> r == Fail(Forbidden(NoEditableSite))
    ensures siteIds != [] ==> r.Ok?
    ensures r.Ok? ==> r.value.siteIds == if includeSites && |siteIds| > 1 then Some([]) else None
    ensures r.Ok? && !includeSites ==> r.value.sites == SitesAbsent
    ensures r.Ok? && includeSites && |siteIds| <= 1 ==> r.value.sites == SitesNull
    ensures r.Ok? && includeSites && |siteIds| > 1 ==>
              r.value.sites.SitesList? && |r.value.sites.options| == |siteIds|
              && forall i :: 0 <= i < |siteIds| ==> r.value.sites.options[i] == SiteOption(siteIds[i], siteName(siteIds[i]))
    ensures r.Ok? ==> r.value.siteId == element.Prop("siteId")
    ensures r.Ok? ==> r.value.html == RenderInputs(EditorInputs("editor_" + randomSuffix, element.Prop("id"), element.Prop("siteId")))
                                      + "<div class=\"meta\">" + editorHtml + "</div>"
    ensures r.Ok? ==> r.value.headHtml == headHtml && r.value.footHtml == footHtml
  {
    if siteIds == [] {
      return Fail(Forbidden(NoEditableSite));
    }
    var siteIdsEntry: Option<seq<int>> := None;
    var sites := SitesAbsent;
    if includeSites {
      if |siteIds| > 1 {
        siteIdsEntry := Some([]);
        var options := SiteOptions(siteIds, siteName);
        sites := SitesList(options);
      } else {
        sites := SitesNull;
      }
    }
    var namespace := "editor_" + randomSuffix;
    var html := EditorHtml(namespace, element.Prop("id"), element.Prop("siteId"), editorHtml);
    r := Ok(EditorResponse(siteIdsEntry, sites, element.Prop("siteId"), html, headHtml, footHtml));
  }
}
