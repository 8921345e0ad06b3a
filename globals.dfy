/** Global set actions (src/controllers/GlobalsController.php): saving a set's
    definition, choosing the site and the editable sets for the content
    editor, and saving a set's content. */
module Globals {
  import opened Php
  import opened PhpArrays
  import opened Http

  /** The field layout assembled from the posted form, tagged with its
      element type. */
  datatype FieldLayout = FieldLayout(layoutType: string, fields: seq<string>)

  const GlobalSetClass := "craft\\elements\\GlobalSet"

  class GlobalSet {
    var id: Option<int>
    var name: Option<string>
    var handle: Option<string>
    var fieldLayout: Option<FieldLayout>
    var fieldValues: map<string, string>

    /** `new GlobalSet()` */
    constructor()
      ensures id == None && name == None && handle == None
      ensures fieldLayout == None && fieldValues == map[]
    {
      id, name, handle := None, None, None;
      fieldLayout, fieldValues := None, map[];
    }
  }

  /** What an action returns after trying to save: a redirect with a notice,
      or null with the set sent back to the template and an error notice. */
  datatype SaveOutcome =
    | Redirected(globalSet: GlobalSet, notice: string)
    | SentBack(globalSet: GlobalSet, error: string)

  // ---------------------------------------------------------------------
  // actionSaveSet

  /** Loads the posted set (or starts a new one when no ID is posted), sets
      its name, handle and field layout from the post, and saves it. */
  method SaveSet(postedSetId: Option<string>, postedName: Option<string>, postedHandle: Option<string>,
                 postedLayoutFields: seq<string>, setsById: map<string, GlobalSet>, saveSucceeds: bool)
    returns (r: Result<SaveOutcome>)
    modifies setsById.Values
    ensures OptionTruthy(postedSetId) && postedSetId.value !in setsById ==>
              r == Fail(NotFound("Global set not found"))
    ensures r.Fail? ==> forall s :: s in setsById.Values ==> unchanged(s)
    ensures !(OptionTruthy(postedSetId) && postedSetId.value !in setsById) ==> r.Ok?
    ensures r.Ok? && OptionTruthy(postedSetId) ==> r.value.globalSet == setsById[postedSetId.value]
    ensures r.Ok? && OptionTruthy(postedSetId) ==>
              r.value.globalSet.id == old(setsById[postedSetId.value].id)
              && r.value.globalSet.fieldValues == old(setsById[postedSetId.value].fieldValues)
    ensures r.Ok? && !OptionTruthy(postedSetId) ==>
              fresh(r.value.globalSet) && r.value.globalSet.id == None && r.value.globalSet.fieldValues == map[]
    ensures r.Ok? ==> r.value.globalSet.name == postedName && r.value.globalSet.handle == postedHandle
    ensures r.Ok? ==> r.value.globalSet.fieldLayout == Some(FieldLayout(GlobalSetClass, postedLayoutFields))
    ensures r.Ok? ==> r.value == if saveSucceeds then Redirected(r.value.globalSet, "Global set saved.")
                                 else SentBack(r.value.globalSet, "Couldn’t save global set.")
    ensures r.Ok? ==> forall s :: s in setsById.Values && s != r.value.globalSet ==> unchanged(s)
  {
    var globalSet: GlobalSet;
    if OptionTruthy(postedSetId) {
      if postedSetId.value !in setsById {
        return Fail(NotFound("Global set not found"));
      }
      globalSet := setsById[postedSetId.value];
    } else {
      globalSet := new GlobalSet();
    }
    globalSet.name := postedName;
    globalSet.handle := postedHandle;
    globalSet.fieldLayout := Some(FieldLayout(GlobalSetClass, postedLayoutFields));
    if !saveSucceeds {
      return Ok(SentBack(globalSet, "Couldn’t save global set."));
    }
    r := Ok(Redirected(globalSet, "Global set saved."));
  }

  // ---------------------------------------------------------------------
  // actionEditContent: the site

  /** The site whose content is edited: the one named by handle, else the
      current site when editable, else the first editable site. */
  function ChooseSite(editableSiteIds: seq<int>, siteHandle: Option<string>,
                      siteIdByHandle: map<string, int>, currentSiteId: int): (r: Result<int>)
    ensures editableSiteIds == [] ==> r == Fail(Forbidden("User not permitted to edit content in any sites"))
    ensures editableSiteIds != [] && siteHandle.Some? && siteHandle.value !in siteIdByHandle ==>
              r == Fail(NotFound("Invalid site handle: " + siteHandle.value))
    ensures editableSiteIds != [] && siteHandle.Some? && siteHandle.value in siteIdByHandle
            && siteIdByHandle[siteHandle.value] !in editableSiteIds ==>
              r == Fail(Forbidden("User not permitted to edit content in this site"))
    ensures editableSiteIds != [] && siteHandle.Some? && siteHandle.value in siteIdByHandle
            && siteIdByHandle[siteHandle.value] in editableSiteIds ==>
              r == Ok(siteIdByHandle[siteHandle.value])
    ensures editableSiteIds != [] && siteHandle.None? ==> r.Ok?
    ensures r.Ok? ==> r.value in editableSiteIds
    ensures r.Ok? && siteHandle.Some? ==> r.value == siteIdByHandle[siteHandle.value]
    ensures r.Ok? && siteHandle.None? && currentSiteId in editableSiteIds ==> r.value == currentSiteId
    ensures r.Ok? && siteHandle.None? && currentSiteId !in editableSiteIds ==> r.value == editableSiteIds[0]
  {
    if editableSiteIds == [] then
      Fail(Forbidden("User not permitted to edit content in any sites"))
    else if siteHandle.Some? then
      if siteHandle.value !in siteIdByHandle then
        Fail(NotFound("Invalid site handle: " + siteHandle.value))
      else if siteIdByHandle[siteHandle.value] !in editableSiteIds then
        Fail(Forbidden("User not permitted to edit content in this site"))
      else Ok(siteIdByHandle[siteHandle.value])
    else if currentSiteId in editableSiteIds then Ok(currentSiteId)
    else Ok(editableSiteIds[0])
  }

  // ---------------------------------------------------------------------
  // actionEditContent: the editable sets

  /** A PHP array key made from a nullable handle: null becomes "". */
  function HandleKey(handle: Option<string>): string {
    if handle.Some? then handle.value else ""
  }

  /** The permission name `'editGlobalSet:'.$id`. */
  function SetPermission(id: Option<int>): string {
    "editGlobalSet:" + (if id.Some? then IntText(id.value) else "")
  }

  predicate MayEdit(s: GlobalSet, permissions: set<string>)
    reads s
  {
    SetPermission(s.id) in permissions
  }

  /** The assignments the loop performs, in order. */
  function EditablePairs(sets: seq<GlobalSet>, permissions: set<string>): seq<Entry<string, GlobalSet>>
    reads sets
  {
    if sets == [] then []
    else
      var last := sets[|sets| - 1];
      EditablePairs(sets[..|sets| - 1], permissions)
      + (if MayEdit(last, permissions) then [Entry(HandleKey(last.handle), last)] else [])
  }

  /** The editable sets keyed by handle, as the loop leaves them. */
  function EditableSetMap(sets: seq<GlobalSet>, permissions: set<string>): OrderedMap<string, GlobalSet>
    reads sets
  {
    FromPairs(EditablePairs(sets, permissions))
  }

  /** The last editable set with the given handle: the one a later duplicate
      leaves in place. */
  function LastEditable(sets: seq<GlobalSet>, permissions: set<string>, h: string): (r: Option<GlobalSet>)
    reads sets
    ensures r.Some? ==> r.value in sets && MayEdit(r.value, permissions) && HandleKey(r.value.handle) == h
    ensures r.None? <==> forall i :: 0 <= i < |sets| ==> !(MayEdit(sets[i], permissions) && HandleKey(sets[i].handle) == h)
  {
    if sets == [] then None
    else
      var last := sets[|sets| - 1];
      if MayEdit(last, permissions) && HandleKey(last.handle) == h then Some(last)
      else
        var r := LastEditable(sets[..|sets| - 1], permissions, h);
        assert forall i :: 0 <= i < |sets| - 1 ==> sets[..|sets| - 1][i] == sets[i];
        r
  }

  /** The set is editable and has the given handle. */
  predicate EditableWithHandle(s: GlobalSet, permissions: set<string>, h: string)
    reads s
  {
    MayEdit(s, permissions) && HandleKey(s.handle) == h
  }

  /** The position of the last editable set with the given handle, -1 when
      there is none. */
  function LastEditableIndex(sets: seq<GlobalSet>, permissions: set<string>, h: string): (i: int)
    reads sets
    ensures -1 <= i < |sets|
    ensures 0 <= i ==> EditableWithHandle(sets[i], permissions, h)
    ensures forall j :: i < j < |sets| ==> !EditableWithHandle(sets[j], permissions, h)
  {
    if sets == [] then -1
    else if EditableWithHandle(sets[|sets| - 1], permissions, h) then |sets| - 1
    else
      var init := sets[..|sets| - 1];
      var k := LastEditableIndex(init, permissions, h);
      assert 0 <= k ==> sets[k] == init[k];
      assert forall j :: k < j < |sets| ==> !EditableWithHandle(sets[j], permissions, h) by {
        forall j | k < j < |sets|
          ensures !EditableWithHandle(sets[j], permissions, h)
        {
          if j < |init| {
            assert sets[j] == init[j];
          }
        }
      }
      k
  }

  /** The chosen set is the one at the last position holding an editable set
      with that handle: no such set comes after it. */
  lemma {:induction false} LastEditableIsLast(sets: seq<GlobalSet>, permissions: set<string>, h: string)
    ensures var i := LastEditableIndex(sets, permissions, h);
            LastEditable(sets, permissions, h) == if i < 0 then None else Some(sets[i])
  {
    if sets != [] && !EditableWithHandle(sets[|sets| - 1], permissions, h) {
      var init := sets[..|sets| - 1];
      LastEditableIsLast(init, permissions, h);
      var i := LastEditableIndex(init, permissions, h);
      if 0 <= i {
        assert init[i] == sets[i];
      }
    }
  }

  /** Fills the map with `$editableGlobalSets[$handle] = $set` for every set
      the user may edit. */
  method CollectEditableSets(sets: seq<GlobalSet>, permissions: set<string>)
    returns (m: OrderedMap<string, GlobalSet>)
    ensures m == EditableSetMap(sets, permissions)
  {
    m := [];
    for i := 0 to |sets|
      invariant m == FromPairs(EditablePairs(sets[..i], permissions))
    {
      assert sets[..i + 1][..i] == sets[..i];
      if MayEdit(sets[i], permissions) {
        ghost var ps := EditablePairs(sets[..i], permissions);
        assert EditablePairs(sets[..i + 1], permissions) == ps + [Entry(HandleKey(sets[i].handle), sets[i])];
        assert (ps + [Entry(HandleKey(sets[i].handle), sets[i])])[..|ps|] == ps;
        m := Put(m, HandleKey(sets[i].handle), sets[i]);
      } else {
        assert EditablePairs(sets[..i + 1], permissions) == EditablePairs(sets[..i], permissions);
      }
    }
    assert sets[..|sets|] == sets;
  }

  lemma {:induction false} EditablePairsLast(sets: seq<GlobalSet>, permissions: set<string>, h: string)
    ensures LastValue(EditablePairs(sets, permissions), h) == LastEditable(sets, permissions, h)
  {
    if sets != [] {
      var init := sets[..|sets| - 1];
      var last := sets[|sets| - 1];
      var ps := EditablePairs(init, permissions);
      EditablePairsLast(init, permissions, h);
      if MayEdit(last, permissions) {
        var e := Entry(HandleKey(last.handle), last);
        assert EditablePairs(sets, permissions) == ps + [e];
        assert (ps + [e])[..|ps|] == ps;
        if HandleKey(last.handle) == h {
          assert LastValue(ps + [e], h) == Some(last);
        } else {
          assert LastValue(ps + [e], h) == LastValue(ps, h);
        }
      } else {
        assert EditablePairs(sets, permissions) == ps;
      }
    }
  }

  /** The map holds exactly the sets the user may edit, keyed by handle, and
      for a repeated handle the later set wins. */
  lemma EditableSetMapContents(sets: seq<GlobalSet>, permissions: set<string>, h: string)
    ensures Get(EditableSetMap(sets, permissions), h) == LastEditable(sets, permissions, h)
    ensures h in Keys(EditableSetMap(sets, permissions)) <==>
              exists i :: 0 <= i < |sets| && MayEdit(sets[i], permissions) && HandleKey(sets[i].handle) == h
  {
    FromPairsGet(EditablePairs(sets, permissions), h);
    EditablePairsLast(sets, permissions, h);
  }

  /** The page `globals/_edit` is rendered with. */
  datatype EditPage = EditPage(editableGlobalSets: OrderedMap<string, GlobalSet>, globalSet: GlobalSet)

  /** The content editor: the site, then the sets of that site the user may
      edit, then the requested set among them. */
  method EditContent(globalSetHandle: string, siteHandle: Option<string>, globalSet: GlobalSet?,
                     editableSiteIds: seq<int>, siteIdByHandle: map<string, int>, currentSiteId: int,
                     setsInSite: int -> seq<GlobalSet>, permissions: set<string>)
    returns (r: Result<EditPage>)
    ensures var site := ChooseSite(editableSiteIds, siteHandle, siteIdByHandle, currentSiteId);
            site.Fail? ==> r == Fail(site.error)
    ensures var site := ChooseSite(editableSiteIds, siteHandle, siteIdByHandle, currentSiteId);
            site.Ok? ==>
              var m := EditableSetMap(setsInSite(site.value), permissions);
              if LastEditable(setsInSite(site.value), permissions, globalSetHandle).None? then
                r == Fail(Forbidden("User not permitted to edit global set"))
              else
                r == Ok(EditPage(m, if globalSet == null
                                    then LastEditable(setsInSite(site.value), permissions, globalSetHandle).value
                                    else globalSet))
  {
    var site := ChooseSite(editableSiteIds, siteHandle, siteIdByHandle, currentSiteId);
    if site.Fail? {
      return Fail(site.error);
    }
    var sets := setsInSite(site.value);
    var editable := CollectEditableSets(sets, permissions);
    EditableSetMapContents(sets, permissions, globalSetHandle);
    var requested := Get(editable, globalSetHandle);
    if requested.None? {
      return Fail(Forbidden("User not permitted to edit global set"));
    }
    var chosen := if globalSet == null then requested.value else globalSet;
    r := Ok(EditPage(editable, chosen));
  }

  // ---------------------------------------------------------------------
  // actionSaveContent

  /** The posted site ID, or the primary site's when none (or a falsy one)
      is posted, in the string form the permission name uses. */
  function ContentSiteId(postedSiteId: Option<string>, primarySiteId: int): (siteId: string)
    ensures OptionTruthy(postedSiteId) ==> siteId == postedSiteId.value
    ensures !OptionTruthy(postedSiteId) ==> ParseInt(siteId) == Some(primarySiteId) && CanonicalIntText(siteId)
  {
    if OptionTruthy(postedSiteId) then postedSiteId.value
    else
      IntTextRoundTrip(primarySiteId);
      IntText(primarySiteId)
  }

  /** Checks the set and (on multi-site installs) the site permission, loads
      the set for that site, applies the posted field values and saves. */
  method SaveContent(postedSetId: Option<string>, postedSiteId: Option<string>, primarySiteId: int,
                     permissions: set<string>, isMultiSite: bool,
                     setsBySiteAndId: map<(string, string), GlobalSet>, postedFields: map<string, string>,
                     saveSucceeds: bool)
    returns (r: Result<SaveOutcome>)
    modifies setsBySiteAndId.Values
    ensures postedSetId.None? ==> r == Fail(BadRequest(MissingParam))
    ensures postedSetId.Some? && "editGlobalSet:" + postedSetId.value !in permissions ==>
              r == Fail(Forbidden(NotPermitted))
    ensures postedSetId.Some? && "editGlobalSet:" + postedSetId.value in permissions ==>
              var siteId := ContentSiteId(postedSiteId, primarySiteId);
              if isMultiSite && "editSite:" + siteId !in permissions then r == Fail(Forbidden(NotPermitted))
              else if (postedSetId.value, siteId) !in setsBySiteAndId then r == Fail(NotFound("Global set not found"))
              else
                var gs := setsBySiteAndId[(postedSetId.value, siteId)];
                r == (if saveSucceeds then Ok(Redirected(gs, "Globals saved.")) else Ok(SentBack(gs, "Couldn’t save globals.")))
                && gs.fieldValues == old(gs.fieldValues) + postedFields
    ensures r.Fail? ==> forall s :: s in setsBySiteAndId.Values ==> unchanged(s)
    ensures r.Ok? ==> forall s :: s in setsBySiteAndId.Values && s != r.value.globalSet ==> unchanged(s)
    ensures r.Ok? ==> unchanged(r.value.globalSet`id, r.value.globalSet`name, r.value.globalSet`handle,
                                r.value.globalSet`fieldLayout)
  {
    if postedSetId.None? {
      return Fail(BadRequest(MissingParam));
    }
    var siteId := ContentSiteId(postedSiteId, primarySiteId);
    if "editGlobalSet:" + postedSetId.value !in permissions {
      return Fail(Forbidden(NotPermitted));
    }
    if isMultiSite && "editSite:" + siteId !in permissions {
      return Fail(Forbidden(NotPermitted));
    }
    if (postedSetId.value, siteId) !in setsBySiteAndId {
      return Fail(NotFound("Global set not found"));
    }
    var globalSet := setsBySiteAndId[(postedSetId.value, siteId)];
    globalSet.fieldValues := globalSet.fieldValues + postedFields;
    if !saveSucceeds {
      return Ok(SentBack(globalSet, "Couldn’t save globals."));
    }
    r := Ok(Redirected(globalSet, "Globals saved."));
  }
}
