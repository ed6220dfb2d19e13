/**
  Properties of the request normaliser: what pruning keeps, when the prefab
  path is derived, checked or left alone, and what is forwarded.
 */
module RequestProperties {
  import opened Values
  import opened Text
  import opened Request

  /** Pruning keeps exactly the supplied arguments, each with its own value,
      under the field's wire key; nothing else reaches the wire. */
  lemma PruneKeepsExactlySupplied(a: Args)
    ensures forall f: Field :: WireKey(f) in WirePayload(Pruned(a)) <==> ArgOf(a, f) != Null
    ensures forall f: Field :: ArgOf(a, f) != Null ==> WirePayload(Pruned(a))[WireKey(f)] == ArgOf(a, f)
  {
    var w := WirePayload(Pruned(a));
    WireKeyInjective();
    forall f: Field
      ensures WireKey(f) in w <==> ArgOf(a, f) != Null
    {
      if WireKey(f) in w {
        var g :| g in Pruned(a) && WireKey(g) == WireKey(f);
        assert g == f;
      }
    }
  }

  /** Only `None` is absent: `False`, `0`, `""` and `[]` all survive pruning
      with their value unchanged. */
  lemma FalsyValuesSurvive(a: Args)
    requires a.saveAsPrefab == Some(false) && a.findAll == Some(false)
    requires a.newLayer == Some(Int(0)) && a.tag == Some("")
    requires a.componentsToRemove == Some(List([]))
    ensures SaveAsPrefab in Pruned(a) && Pruned(a)[SaveAsPrefab] == Bool(false)
    ensures FindAll in Pruned(a) && Pruned(a)[FindAll] == Bool(false)
    ensures NewLayer in Pruned(a) && Pruned(a)[NewLayer] == Int(0)
    ensures Tag in Pruned(a) && Pruned(a)[Tag] == Str("")
    ensures ComponentsToRemove in Pruned(a) && Pruned(a)[ComponentsToRemove] == List([])
  {
    assert ArgOf(a, SaveAsPrefab) == Bool(false);
    assert ArgOf(a, FindAll) == Bool(false);
    assert ArgOf(a, NewLayer) == Int(0);
    assert ArgOf(a, Tag) == Str("");
    assert ArgOf(a, ComponentsToRemove) == List([]);
  }

  /** Outside `create` with `saveAsPrefab` true, nothing is derived or
      checked: the payload is the pruned map itself. */
  lemma NoOpOutsidePrefabBranch(a: Args)
    requires a.action != "create" || a.saveAsPrefab != Some(true)
    ensures Normalize(a) == Ok(Pruned(a))
  {
    PrunedSaveAsPrefab(a);
  }

  /** With no `prefab_path` and a non-empty `name`, the path is
      `{prefab_folder}/{name}.prefab` with backslashes turned into slashes;
      every other entry of the payload is the pruned one. */
  lemma DefaultPathDerivation(a: Args, name: string)
    requires a.action == "create" && a.saveAsPrefab == Some(true)
    requires a.prefabPath.None? && a.name == Some(name) && name != ""
    ensures Normalize(a).Ok?
    ensures Normalize(a).value
      == Pruned(a)[PrefabPath := Str(ReplaceChar(FolderText(a.prefabFolder) + "/" + name + ".prefab", '\\', '/'))]
    ensures '\\' !in Normalize(a).value[PrefabPath].s
  {
    PrunedSaveAsPrefab(a);
    PrunedName(a);
    PrunedPrefabPath(a);
  }

  /** With no `prefab_path` and a missing or empty `name`, the call fails
      locally with the fixed message. */
  lemma MissingNameFails(a: Args)
    requires a.action == "create" && a.saveAsPrefab == Some(true)
    requires a.prefabPath.None? && (a.name.None? || a.name == Some(""))
    ensures Normalize(a) == Err(Envelope(false, Str(MissingNameMessage), None))
  {
    PrunedSaveAsPrefab(a);
    PrunedName(a);
    PrunedPrefabPath(a);
  }

  /** An explicit `prefab_path` is accepted, unchanged, exactly when its
      lowercase form ends in `.prefab`; otherwise the failure names it. */
  lemma ExtensionCheck(a: Args, path: string)
    requires a.action == "create" && a.saveAsPrefab == Some(true)
    requires a.prefabPath == Some(path)
    ensures Normalize(a).Ok? <==> EndsWith(Lower(path), ".prefab")
    ensures Normalize(a).Ok? ==> Normalize(a).value == Pruned(a)
    ensures Normalize(a).Err? ==> Normalize(a).error == Envelope(false, Str(BadExtensionMessage(path)), None)
  {
    PrunedSaveAsPrefab(a);
    PrunedPrefabPath(a);
  }

  /** The suffix check ignores case: any path ending in `.PREFAB`, such as
      `Assets/Foo.PREFAB`, passes. */
  lemma UpperCaseSuffixPasses(stem: string)
    ensures EndsWith(Lower(stem + ".PREFAB"), ".prefab")
  {
    LowerConcat(stem, ".PREFAB");
    assert Lower(".PREFAB") == ".prefab";
    assert Lower(stem + ".PREFAB")[|stem|..] == ".prefab";
  }

  /** The snake_case pop removes nothing, so a supplied `prefab_folder` is
      still sent as `prefabFolder`, and no supplied argument is dropped. */
  lemma PrefabFolderForwarded(a: Args, folder: string)
    requires a.prefabFolder == Some(folder)
    requires Normalize(a).Ok?
    ensures PrefabFolder in Normalize(a).value && Normalize(a).value[PrefabFolder] == Str(folder)
    ensures "prefabFolder" in WirePayload(Normalize(a).value)
    ensures WirePayload(Normalize(a).value)[WireKey(PrefabFolder)] == Str(folder)
    ensures Pruned(a).Keys <= Normalize(a).value.Keys
  {
    PrunedPrefabFolder(a);
    assert WireKey(PrefabFolder) == "prefabFolder";
  }

  /** A bare `create` call leaves the Python defaults in the payload:
      `saveAsPrefab`, `findAll`, `searchInChildren` and `searchInactive` as
      `False`, and `prefabFolder` as `Assets/Prefabs`. */
  lemma DefaultsAreSent(action: string)
    ensures var p := Pruned(CallWithDefaults(action));
      && SaveAsPrefab in p && p[SaveAsPrefab] == Bool(false)
      && FindAll in p && p[FindAll] == Bool(false)
      && SearchInChildren in p && p[SearchInChildren] == Bool(false)
      && SearchInactive in p && p[SearchInactive] == Bool(false)
      && PrefabFolder in p && p[PrefabFolder] == Str(DefaultPrefabFolder)
      && Name !in p && PrefabPath !in p
    ensures Pruned(CallWithDefaults(action)).Keys
      == {Action, SaveAsPrefab, PrefabFolder, FindAll, SearchInChildren, SearchInactive}
  {
    var a := CallWithDefaults(action);
    assert ArgOf(a, SaveAsPrefab) == Bool(false) && ArgOf(a, FindAll) == Bool(false);
    assert ArgOf(a, SearchInChildren) == Bool(false) && ArgOf(a, SearchInactive) == Bool(false);
    assert ArgOf(a, PrefabFolder) == Str(DefaultPrefabFolder);
    assert ArgOf(a, Name) == Null && ArgOf(a, PrefabPath) == Null;
  }

  /** A folder and name without backslashes give the path
      `{folder}/{name}.prefab` verbatim. */
  lemma ForwardSlashPathKept(folder: string, name: string)
    requires '\\' !in folder && '\\' !in name
    ensures DerivedPrefabPath(Some(folder), name) == folder + "/" + name + ".prefab"
  {
    ReplaceCharIdentity(folder + "/" + name + ".prefab", '\\', '/');
  }

  /** A Windows-style separator in the folder becomes a forward slash and
      nothing else changes: `Assets\Custom` with `Cube` gives
      `Assets/Custom/Cube.prefab`. */
  lemma BackslashFolderNormalised(head: string, rest: string, name: string)
    requires '\\' !in head && '\\' !in rest && '\\' !in name
    ensures DerivedPrefabPath(Some(head + "\\" + rest), name) == head + "/" + rest + "/" + name + ".prefab"
  {
    var tail := rest + "/" + name + ".prefab";
    assert head + "\\" + rest + "/" + name + ".prefab" == head + "\\" + tail;
    ReplaceSingle(head, tail, '\\', '/');
    assert head + "/" + rest + "/" + name + ".prefab" == head + "/" + tail;
  }

  /** `name="Cube"` with the default folder gives `Assets/Prefabs/Cube.prefab`. */
  lemma DefaultFolderExample()
    ensures DerivedPrefabPath(Some(DefaultPrefabFolder), "Cube") == "Assets/Prefabs/Cube.prefab"
  {
    ForwardSlashPathKept(DefaultPrefabFolder, "Cube");
  }

  /** `Assets/Foo.txt` is rejected. */
  lemma RejectedExtensionExample()
    ensures !EndsWith(Lower("Assets/Foo.txt"), ".prefab")
  {
    assert Lower("Assets/Foo.txt")[13] == 't';
  }
}
