/**
  Request normaliser of the `manage_gameobject` tool: the flat, optional-heavy
  argument list is renamed to the host's camelCase wire keys, every argument
  that is `None` is dropped, and for `create` with `saveAsPrefab` the prefab
  path is derived or validated before anything is sent.
 */
module Request {
  import opened Values
  import opened Text

  /** The payload handed to the transport: each present field (sent under its
      `WireKey`) with its value. */
  type Payload = map<Field, Value>

  /** The tool's arguments, one field per Python parameter (named after its wire key). */
  datatype Args = Args(
    action: string,
    target: Option<Value>,
    searchMethod: Option<string>,
    name: Option<string>,
    tag: Option<string>,
    parent: Option<Value>,
    position: Option<Value>,
    rotation: Option<Value>,
    scale: Option<Value>,
    componentsToAdd: Option<Value>,
    primitiveType: Option<string>,
    saveAsPrefab: Option<bool>,
    prefabPath: Option<string>,
    prefabFolder: Option<string>,
    newName: Option<string>,
    newParent: Option<Value>,
    setActive: Option<bool>,
    newTag: Option<string>,
    newLayer: Option<Value>,
    componentsToRemove: Option<Value>,
    componentProperties: Option<Value>,
    searchTerm: Option<string>,
    findAll: Option<bool>,
    searchInChildren: Option<bool>,
    searchInactive: Option<bool>,
    componentName: Option<string>)

  const DefaultPrefabFolder: string := "Assets/Prefabs"

  /** The arguments of a call that supplies only `action`: the Python defaults apply. */
  function CallWithDefaults(action: string): (a: Args)
    ensures a.action == action
    ensures a.saveAsPrefab == Some(false) && a.prefabFolder == Some(DefaultPrefabFolder)
    ensures a.findAll == Some(false) && a.searchInChildren == Some(false) && a.searchInactive == Some(false)
    ensures a.name.None? && a.prefabPath.None? && a.target.None?
    ensures forall f :: f !in {Action, SaveAsPrefab, PrefabFolder, FindAll, SearchInChildren, SearchInactive} ==> ArgOf(a, f) == Null
  {
    Args(action, None, None, None, None, None, None, None, None, None, None,
         Some(false), None, Some(DefaultPrefabFolder), None, None, None, None, None,
         None, None, None, Some(false), Some(false), Some(false), None)
  }

  /** One entry of the parameter map. */
  datatype Field =
    | Action
    | Target
    | SearchMethod
    | Name
    | Tag
    | Parent
    | Position
    | Rotation
    | Scale
    | ComponentsToAdd
    | PrimitiveType
    | SaveAsPrefab
    | PrefabPath
    | PrefabFolder
    | NewName
    | NewParent
    | SetActive
    | NewTag
    | NewLayer
    | ComponentsToRemove
    | ComponentProperties
    | SearchTerm
    | FindAll
    | SearchInChildren
    | SearchInactive
    | ComponentName

  /** The camelCase key a field is sent under: it has no underscore, and
      `FieldOf` reads the field back from it. */
  function WireKey(f: Field): (k: string)
    ensures '_' !in k
    ensures FieldOf(k) == Some(f)
  {
    match f
    case Action => "action"
    case Target => "target"
    case SearchMethod => "searchMethod"
    case Name => "name"
    case Tag => "tag"
    case Parent => "parent"
    case Position => "position"
    case Rotation => "rotation"
    case Scale => "scale"
    case ComponentsToAdd => "componentsToAdd"
    case PrimitiveType => "primitiveType"
    case SaveAsPrefab => "saveAsPrefab"
    case PrefabPath => "prefabPath"
    case PrefabFolder => "prefabFolder"
    case NewName => "newName"
    case NewParent => "newParent"
    case SetActive => "setActive"
    case NewTag => "newTag"
    case NewLayer => "newLayer"
    case ComponentsToRemove => "componentsToRemove"
    case ComponentProperties => "componentProperties"
    case SearchTerm => "searchTerm"
    case FindAll => "findAll"
    case SearchInChildren => "searchInChildren"
    case SearchInactive => "searchInactive"
    case ComponentName => "componentName"
  }

  /** The parameters annotated `Optional[str]`. */
  const TextFields: set<Field> :=
    {SearchMethod, Name, Tag, PrimitiveType, PrefabPath, PrefabFolder, NewName, NewTag, SearchTerm, ComponentName}

  /** The parameters annotated `Optional[bool]`. */
  const FlagFields: set<Field> := {SaveAsPrefab, SetActive, FindAll, SearchInChildren, SearchInactive}

  /** The value of a field's argument; `Null` stands for an argument that is
      `None`. `action` is required and always a text; every other value has
      the parameter's annotated type or is `None`. */
  function ArgOf(a: Args, f: Field): (v: Value)
    ensures f == Action ==> v == Str(a.action)
    ensures f in TextFields ==> v.Null? || v.Str?
    ensures f in FlagFields ==> v.Null? || v.Bool?
  {
    match f
    case Action => Str(a.action)
    case Target => FromValue(a.target)
    case SearchMethod => FromString(a.searchMethod)
    case Name => FromString(a.name)
    case Tag => FromString(a.tag)
    case Parent => FromValue(a.parent)
    case Position => FromValue(a.position)
    case Rotation => FromValue(a.rotation)
    case Scale => FromValue(a.scale)
    case ComponentsToAdd => FromValue(a.componentsToAdd)
    case PrimitiveType => FromString(a.primitiveType)
    case SaveAsPrefab => FromBool(a.saveAsPrefab)
    case PrefabPath => FromString(a.prefabPath)
    case PrefabFolder => FromString(a.prefabFolder)
    case NewName => FromString(a.newName)
    case NewParent => FromValue(a.newParent)
    case SetActive => FromBool(a.setActive)
    case NewTag => FromString(a.newTag)
    case NewLayer => FromValue(a.newLayer)
    case ComponentsToRemove => FromValue(a.componentsToRemove)
    case ComponentProperties => FromValue(a.componentProperties)
    case SearchTerm => FromString(a.searchTerm)
    case FindAll => FromBool(a.findAll)
    case SearchInChildren => FromBool(a.searchInChildren)
    case SearchInactive => FromBool(a.searchInactive)
    case ComponentName => FromString(a.componentName)
  }

  /** The inverse of `WireKey`: the field sent under key `k`, if any. */
  function FieldOf(k: string): Option<Field>
  {
    match |k|
    case 3 => if k == "tag" then Some(Tag) else None
    case 4 => if k == "name" then Some(Name) else None
    case 5 => if k == "scale" then Some(Scale) else None
    case 6 => if k == "action" then Some(Action) else if k == "target" then Some(Target) else if k == "parent" then Some(Parent) else if k == "newTag" then Some(NewTag) else None
    case 7 => if k == "newName" then Some(NewName) else if k == "findAll" then Some(FindAll) else None
    case 8 => if k == "position" then Some(Position) else if k == "rotation" then Some(Rotation) else if k == "newLayer" then Some(NewLayer) else None
    case 9 => if k == "newParent" then Some(NewParent) else if k == "setActive" then Some(SetActive) else None
    case 10 => if k == "prefabPath" then Some(PrefabPath) else if k == "searchTerm" then Some(SearchTerm) else None
    case 12 => if k == "searchMethod" then Some(SearchMethod) else if k == "saveAsPrefab" then Some(SaveAsPrefab) else if k == "prefabFolder" then Some(PrefabFolder) else None
    case 13 => if k == "primitiveType" then Some(PrimitiveType) else if k == "componentName" then Some(ComponentName) else None
    case 14 => if k == "searchInactive" then Some(SearchInactive) else None
    case 15 => if k == "componentsToAdd" then Some(ComponentsToAdd) else None
    case 16 => if k == "searchInChildren" then Some(SearchInChildren) else None
    case 18 => if k == "componentsToRemove" then Some(ComponentsToRemove) else None
    case 19 => if k == "componentProperties" then Some(ComponentProperties) else None
    case _ => None
  }

  /** Distinct fields are sent under distinct keys, so the parameter map has
      no repeated key. */
  lemma WireKeyInjective()
    ensures forall f: Field :: FieldOf(WireKey(f)) == Some(f)
    ensures forall f: Field, g: Field :: WireKey(f) == WireKey(g) ==> f == g
  {
    forall f: Field
      ensures FieldOf(WireKey(f)) == Some(f)
    {
    }
  }

  /** The payload as the transport serialises it: keyed by wire key. */
  function WirePayload(p: Payload): (w: map<string, Value>)
    ensures forall f :: f in p ==> WireKey(f) in w && w[WireKey(f)] == p[f]
    ensures forall k :: k in w ==> exists f :: f in p && WireKey(f) == k
  {
    WireKeyInjective();
    map f | f in p :: WireKey(f) := p[f]
  }

  /** `params` after pruning, `{k: v for k, v in params.items() if v is not None}`. */
  function Pruned(a: Args): (m: Payload)
    ensures Action in m
    ensures forall f :: f in m <==> ArgOf(a, f) != Null
    ensures forall f :: f in m ==> m[f] == ArgOf(a, f)
  {
    map f: Field | ArgOf(a, f) != Null :: ArgOf(a, f)
  }

  /** `params.pop(key, None)`: drop the entry sent under the text `key`, if any. */
  function PopKey(params: Payload, key: string): (m: Payload)
    ensures m.Keys <= params.Keys
    ensures forall f :: f in m ==> m[f] == params[f]
    ensures forall f :: f in params ==> (f in m <==> WireKey(f) != key)
  {
    map f | f in params && WireKey(f) != key :: params[f]
  }

  /** No field is sent under the snake_case text `prefab_folder`, so popping it
      removes nothing: in particular `prefabFolder` stays. */
  lemma PopPrefabFolderIsNoOp(params: Payload)
    ensures PopKey(params, "prefab_folder") == params
  {
    forall f: Field
      ensures WireKey(f) != "prefab_folder"
    {
    }
  }

  /** `saveAsPrefab` is present exactly when supplied, and truthy exactly when `True`. */
  lemma PrunedSaveAsPrefab(a: Args)
    ensures SaveAsPrefab in Pruned(a) <==> a.saveAsPrefab.Some?
    ensures Truthy(Get(Pruned(a), SaveAsPrefab, Null)) <==> a.saveAsPrefab == Some(true)
  {
    assert SaveAsPrefab in Pruned(a) <==> ArgOf(a, SaveAsPrefab) != Null;
    assert ArgOf(a, SaveAsPrefab) == FromBool(a.saveAsPrefab);
  }

  /** `name` is present exactly when supplied, holding the given text. */
  lemma PrunedName(a: Args)
    ensures Name in Pruned(a) <==> a.name.Some?
    ensures a.name.Some? ==> Name in Pruned(a) && Pruned(a)[Name] == Str(a.name.value)
  {
    assert Name in Pruned(a) <==> ArgOf(a, Name) != Null;
    assert ArgOf(a, Name) == FromString(a.name);
  }

  /** `prefabPath` is present exactly when supplied, holding the given text. */
  lemma PrunedPrefabPath(a: Args)
    ensures PrefabPath in Pruned(a) <==> a.prefabPath.Some?
    ensures a.prefabPath.Some? ==> PrefabPath in Pruned(a) && Pruned(a)[PrefabPath] == Str(a.prefabPath.value)
  {
    assert PrefabPath in Pruned(a) <==> ArgOf(a, PrefabPath) != Null;
    assert ArgOf(a, PrefabPath) == FromString(a.prefabPath);
  }

  /** `prefabFolder` is present exactly when supplied (by default it is). */
  lemma PrunedPrefabFolder(a: Args)
    ensures PrefabFolder in Pruned(a) <==> a.prefabFolder.Some?
    ensures a.prefabFolder.Some? ==> PrefabFolder in Pruned(a) && Pruned(a)[PrefabFolder] == Str(a.prefabFolder.value)
  {
    assert PrefabFolder in Pruned(a) <==> ArgOf(a, PrefabFolder) != Null;
    assert ArgOf(a, PrefabFolder) == FromString(a.prefabFolder);
  }

  /** The branch guard: `action == "create" and params.get("saveAsPrefab")`,
      which holds exactly for `create` with `save_as_prefab=True`. */
  function PrefabBranch(a: Args): (b: bool)
    ensures b <==> a.action == "create" && a.saveAsPrefab == Some(true)
  {
    PrunedSaveAsPrefab(a);
    a.action == "create" && Truthy(Get(Pruned(a), SaveAsPrefab, Null))
  }

  /** `f"{prefab_folder}"`: a folder of `None` formats as the text "None". */
  function FolderText(folder: Option<string>): (t: string)
    ensures folder.Some? ==> t == folder.value
    ensures folder.None? ==> t == "None"
  {
    match folder
    case None => "None"
    case Some(f) => f
  }

  /** The extension `.prefab` has no backslash and no upper-case letter. */
  lemma PrefabExtensionIsPlain()
    ensures '\\' !in ".prefab" && Lower(".prefab") == ".prefab"
  {
    LowerWithoutUpper(".prefab");
  }

  /** Rewriting backslashes cannot disturb a trailing `.prefab`, in any case. */
  lemma PrefabSuffixSurvives(stem: string)
    ensures EndsWith(ReplaceChar(stem + ".prefab", '\\', '/'), ".prefab")
    ensures EndsWith(Lower(ReplaceChar(stem + ".prefab", '\\', '/')), ".prefab")
  {
    var head := ReplaceChar(stem, '\\', '/');
    PrefabExtensionIsPlain();
    ReplaceCharKeepsSuffix(stem, ".prefab", '\\', '/');
    EndsWithConcat(head, ".prefab");
    LowerKeepsLowerSuffix(head, ".prefab");
    EndsWithConcat(Lower(head), ".prefab");
  }

  /** `f"{prefab_folder}/{name}.prefab".replace("\\", "/")`: separators all
      forward slashes, and the result passes the suffix check. */
  function DerivedPrefabPath(folder: Option<string>, name: string): (p: string)
    ensures '\\' !in p
    ensures EndsWith(Lower(p), ".prefab")
  {
    PrefabSuffixSurvives(FolderText(folder) + "/" + name);
    assert FolderText(folder) + "/" + name + ".prefab" == (FolderText(folder) + "/" + name) + ".prefab";
    ReplaceChar(FolderText(folder) + "/" + name + ".prefab", '\\', '/')
  }

  const MissingNameMessage: string := "Cannot create default prefab path: 'name' parameter is missing."

  const BadPathPrefix: string := "Invalid prefab_path: '"
  const BadPathSuffix: string := "' must end with .prefab"

  /** The rejection message quotes the offending path in full: it can be read
      back from between the fixed prefix and suffix. */
  function BadExtensionMessage(path: string): (m: string)
    ensures |m| == |BadPathPrefix| + |path| + |BadPathSuffix|
    ensures m[..|BadPathPrefix|] == BadPathPrefix && m[|m| - |BadPathSuffix|..] == BadPathSuffix
    ensures m[|BadPathPrefix|..|m| - |BadPathSuffix|] == path
  {
    BadPathPrefix + path + BadPathSuffix
  }

  function LocalFailure(message: string): (e: Envelope)
    ensures !e.success && e.data.None?
  {
    Envelope(false, Str(message), None)
  }

  /** The prefab-path rule applied to the pruned `params`: derive a missing
      path from the folder and the name, or check the suffix of a given one.
      Only `prefabPath` can change, and a result always holds a path that
      passes the suffix check. */
  function ApplyPrefabRule(a: Args, params: Payload): (r: Result<Payload, Envelope>)
    requires params == Pruned(a)
    ensures r.Err? ==> !r.error.success && r.error.data.None?
    ensures r.Ok? ==> PrefabPath in r.value && r.value == params[PrefabPath := r.value[PrefabPath]]
    ensures r.Ok? ==> PrefabPath in r.value && r.value[PrefabPath].Str? && EndsWith(Lower(r.value[PrefabPath].s), ".prefab")
  {
    PrunedName(a);
    PrunedPrefabPath(a);
    if PrefabPath !in params then
      if Name !in params || !Truthy(params[Name]) then Err(LocalFailure(MissingNameMessage))
      else Ok(params[PrefabPath := Str(DerivedPrefabPath(a.prefabFolder, a.name.value))])
    else if !EndsWith(Lower(a.prefabPath.value), ".prefab") then
      Err(LocalFailure(BadExtensionMessage(a.prefabPath.value)))
    else Ok(params)
  }

  /** The whole request side: either the payload to send or a local failure.
      Outside the prefab branch the payload is the pruned map itself; inside
      it, a local failure is the only alternative to a payload that differs
      from the pruned map at most in a `prefabPath` passing the suffix check. */
  function Normalize(a: Args): (r: Result<Payload, Envelope>)
    ensures r.Err? ==> PrefabBranch(a) && !r.error.success && r.error.data.None?
    ensures !PrefabBranch(a) ==> r == Ok(Pruned(a))
    ensures r.Ok? && PrefabBranch(a) ==>
      PrefabPath in r.value && r.value == Pruned(a)[PrefabPath := r.value[PrefabPath]]
    ensures r.Ok? && PrefabBranch(a) ==>
      PrefabPath in r.value && r.value[PrefabPath].Str? && EndsWith(Lower(r.value[PrefabPath].s), ".prefab")
  {
    var params := Pruned(a);
    var sent :=
      if a.action == "create" && Truthy(Get(params, SaveAsPrefab, Null)) then ApplyPrefabRule(a, params)
      else Ok(params);
    match sent
    case Err(e) => Err(e)
    case Ok(p) => PopPrefabFolderIsNoOp(p); Ok(PopKey(p, "prefab_folder"))
  }
}
