/**
 * The UI manager singleton: a cache of UI screens keyed by type, a cache of
 * sprite atlases keyed by name and a cached default sprite, all updated in
 * place. Every side effect on the engine, the layout strategy or a UI is
 * appended to the ghost log `events`.
 */
module Manager {
  import opened Wrappers
  import opened UiCache

  class UiManager {
    /** The asset id each UI type is bound to (the BindingResource attribute). */
    const bindings: map<UiType, AssetId>
    /** The resource folder the UI atlases are loaded from. */
    const uiAtlasFolder: string
    /** The resource path of the default sprite. */
    const defaultSpritePath: string

    var loadedUiDict: UiDict
    var atlasDict: AtlasDict
    var defaultSprite: Option<Sprite>
    ghost var events: seq<Event>

    /**
     * The object invariant: no UI type is mapped to null. A null entry could
     * only be a UI that the engine destroyed behind the manager's back.
     */
    ghost predicate Valid()
      reads this
    {
      NoNullEntry(loadedUiDict)
    }

    constructor (bindings: map<UiType, AssetId>, uiAtlasFolder: string, defaultSpritePath: string)
      ensures this.bindings == bindings && this.uiAtlasFolder == uiAtlasFolder
      ensures this.defaultSpritePath == defaultSpritePath
      ensures loadedUiDict == map[] && atlasDict == map[] && defaultSprite == None && events == []
      ensures Valid()
    {
      this.bindings := bindings;
      this.uiAtlasFolder := uiAtlasFolder;
      this.defaultSpritePath := defaultSpritePath;
      loadedUiDict := map[];
      atlasDict := map[];
      defaultSprite := None;
      events := [];
    }

    /** The cached UI of `uiType`, or a freshly loaded, created and cached one. */
    method CreateUi(uiType: UiType, engine: Engine) returns (ui: Option<Ui>)
      requires uiType in loadedUiDict || uiType in bindings
      modifies this
      ensures old(Valid()) ==> Valid()
      ensures var s := CreateUiSpec(old(loadedUiDict), bindings, engine, uiType);
              loadedUiDict == s.dict && ui == s.ui && events == old(events) + s.log
      ensures atlasDict == old(atlasDict) && defaultSprite == old(defaultSprite)
    {
      if uiType in loadedUiDict {
        return loadedUiDict[uiType];
      }
      var assetId := bindings[uiType];
      events := events + [LoadAsset(assetId)];
      var prefab := engine.loadUi(assetId);
      if prefab.None? {
        return None;
      }
      var created := engine.instantiate(prefab.value);
      events := events + [StrategyCreate(prefab.value)];
      events := events + [OnCreate(uiType, created)];
      loadedUiDict := loadedUiDict[uiType := Some(created)];
      ui := Some(created);
    }

    /**
     * Tells the layout strategy to clear, then calls OnRuin and Destroy on
     * every live UI without the "don't destroy" flag (in the dictionary's
     * enumeration order, returned as `order`) and removes those keys.
     */
    method DestroyAllUi() returns (ghost order: seq<UiType>)
      modifies this
      ensures old(Valid()) ==> Valid()
      ensures loadedUiDict == Survivors(old(loadedUiDict))
      ensures NoDuplicates(order)
      ensures forall k :: k in order <==> k in DoomedKeys(old(loadedUiDict))
      ensures AllLive(order, old(loadedUiDict))
      ensures events == old(events) + [StrategyClear] + RuinLog(order, old(loadedUiDict))
      ensures atlasDict == old(atlasDict) && defaultSprite == old(defaultSprite)
    {
      events := events + [StrategyClear];
      var dict := loadedUiDict;
      var destroyUis: seq<UiType> := [];
      var unvisited := dict.Keys;
      while unvisited != {}
        invariant unvisited <= dict.Keys
        invariant loadedUiDict == dict == old(loadedUiDict)
        invariant atlasDict == old(atlasDict) && defaultSprite == old(defaultSprite)
        invariant NoDuplicates(destroyUis) && AllLive(destroyUis, dict)
        invariant forall k :: k in destroyUis ==> k in DoomedKeys(dict) && k !in unvisited
        invariant forall k :: k in DoomedKeys(dict) && k !in unvisited ==> k in destroyUis
        invariant events == old(events) + [StrategyClear] + RuinLog(destroyUis, dict)
        decreases unvisited
      {
        var k :| k in unvisited;
        unvisited := unvisited - {k};
        var entry := dict[k];
        if entry.None? {
          continue;
        }
        if entry.value.isDontDestroy {
          continue;
        }
        ghost var before := destroyUis;
        destroyUis := destroyUis + [k];
        assert destroyUis[..|destroyUis| - 1] == before;
        events := events + [OnRuin(k, entry.value), DestroyUi(k, entry.value)];
      }
      order := destroyUis;
      RemoveAll(destroyUis);
      assert forall k :: k in destroyUis <==> k in DoomedKeys(dict);
      assert loadedUiDict.Keys == Survivors(old(loadedUiDict)).Keys;
    }

    /** The second phase of DestroyAllUi: removes each collected key from the UI cache. */
    method RemoveAll(keys: seq<UiType>)
      modifies this
      ensures old(Valid()) ==> Valid()
      ensures loadedUiDict.Keys == old(loadedUiDict).Keys - set k | k in keys
      ensures forall k :: k in loadedUiDict ==> loadedUiDict[k] == old(loadedUiDict)[k]
      ensures atlasDict == old(atlasDict) && defaultSprite == old(defaultSprite) && events == old(events)
    {
      var i := 0;
      while i < |keys|
        invariant 0 <= i <= |keys|
        invariant loadedUiDict.Keys == old(loadedUiDict).Keys - set k | k in keys[..i]
        invariant forall k :: k in loadedUiDict ==> loadedUiDict[k] == old(loadedUiDict)[k]
        invariant atlasDict == old(atlasDict) && defaultSprite == old(defaultSprite) && events == old(events)
      {
        assert keys[..i + 1] == keys[..i] + [keys[i]];
        loadedUiDict := loadedUiDict - {keys[i]};
        i := i + 1;
      }
      assert keys[..i] == keys;
    }

    /** Opens the UI of `uiType` through the layout strategy, creating it first when no live one is cached. */
    method OpenUi(uiType: UiType, completeCb: Callback, engine: Engine)
      requires uiType in loadedUiDict || uiType in bindings
      modifies this
      ensures old(Valid()) ==> Valid()
      ensures TryGetUi(old(loadedUiDict), uiType).Some? ==>
        loadedUiDict == old(loadedUiDict) && events == old(events) + [StrategyOpen(TryGetUi(old(loadedUiDict), uiType), completeCb)]
      ensures TryGetUi(old(loadedUiDict), uiType).None? ==>
        var s := CreateUiSpec(old(loadedUiDict), bindings, engine, uiType);
        loadedUiDict == s.dict && events == old(events) + s.log + [StrategyOpen(s.ui, completeCb)]
      ensures atlasDict == old(atlasDict) && defaultSprite == old(defaultSprite)
    {
      var ui := TryGetUi(loadedUiDict, uiType);
      if ui.None? {
        ui := CreateUi(uiType, engine);
      }
      events := events + [StrategyOpen(ui, completeCb)];
    }

    /** Closes the cached UI of `uiType`; does nothing when no live one is cached. */
    method CloseUi(uiType: UiType, completeCb: Callback)
      modifies this
      ensures old(Valid()) ==> Valid()
      ensures loadedUiDict == old(loadedUiDict) && atlasDict == old(atlasDict) && defaultSprite == old(defaultSprite)
      ensures TryGetUi(loadedUiDict, uiType).None? ==> events == old(events)
      ensures TryGetUi(loadedUiDict, uiType).Some? ==>
        events == old(events) + [Close(uiType, TryGetUi(loadedUiDict, uiType).value, completeCb)]
    {
      var loadedUi := TryGetUi(loadedUiDict, uiType);
      if loadedUi.None? {
        return;
      }
      events := events + [Close(uiType, loadedUi.value, completeCb)];
    }

    /** Hands the operation code to the layout strategy. */
    method OperateUi(op: int)
      modifies this
      ensures old(Valid()) ==> Valid()
      ensures loadedUiDict == old(loadedUiDict) && atlasDict == old(atlasDict) && defaultSprite == old(defaultSprite)
      ensures events == old(events) + [StrategyOperate(op)]
    {
      events := events + [StrategyOperate(op)];
    }

    /**
     * Calls Refresh on every UI in state US_SHOW, in enumeration order
     * (`order`). Reading the state of a null entry raises, which ends the pass
     * early with `completed` false.
     */
    method RefreshUi() returns (completed: bool, ghost order: seq<UiType>)
      modifies this
      ensures old(Valid()) ==> Valid()
      ensures loadedUiDict == old(loadedUiDict) && atlasDict == old(atlasDict) && defaultSprite == old(defaultSprite)
      ensures completed <==> NoNullEntry(loadedUiDict)
      ensures Valid() ==> completed
      ensures NoDuplicates(order) && AllLive(order, loadedUiDict)
      ensures forall k :: k in order ==> k in ShownKeys(loadedUiDict)
      ensures completed ==> forall k :: k in ShownKeys(loadedUiDict) ==> k in order
      ensures events == old(events) + RefreshLog(order, loadedUiDict)
    {
      order := [];
      completed := true;
      var dict := loadedUiDict;
      var unvisited := dict.Keys;
      while unvisited != {} && completed
        invariant unvisited <= dict.Keys
        invariant loadedUiDict == dict == old(loadedUiDict)
        invariant atlasDict == old(atlasDict) && defaultSprite == old(defaultSprite)
        invariant NoDuplicates(order) && AllLive(order, dict)
        invariant forall k :: k in order ==> k in ShownKeys(dict) && k !in unvisited
        invariant forall k :: k in ShownKeys(dict) && k !in unvisited ==> k in order
        invariant completed ==> forall k :: k in dict && k !in unvisited ==> dict[k].Some?
        invariant !completed ==> !NoNullEntry(dict)
        invariant events == old(events) + RefreshLog(order, dict)
        decreases unvisited
      {
        var k :| k in unvisited;
        unvisited := unvisited - {k};
        var entry := dict[k];
        if entry.None? {
          completed := false;
        } else if entry.value.state == UsShow {
          ghost var before := order;
          order := order + [k];
          assert order[..|order| - 1] == before;
          events := events + [Refresh(k, entry.value)];
        }
      }
    }

    /** The atlas named `atlasName`: the cached one, or a freshly loaded one that is then cached. */
    method GetAtlas(atlasName: string, engine: Engine) returns (atlas: Option<Atlas>)
      modifies this
      ensures old(Valid()) ==> Valid()
      ensures var s := GetAtlasSpec(old(atlasDict), uiAtlasFolder, engine, atlasName);
              atlasDict == s.dict && atlas == s.atlas && events == old(events) + s.log
      ensures loadedUiDict == old(loadedUiDict) && defaultSprite == old(defaultSprite)
    {
      var spriteAtlas := if atlasName in atlasDict then Some(atlasDict[atlasName]) else None;
      if spriteAtlas.None? {
        var path := AtlasPath(uiAtlasFolder, atlasName);
        events := events + [LoadAsset(path)];
        spriteAtlas := engine.loadAtlas(path);
      }
      if spriteAtlas.None? {
        return None;
      }
      atlasDict := atlasDict[atlasName := spriteAtlas.value];
      atlas := spriteAtlas;
    }

    /** Destroys the atlas cached under `atlasPath`, if any, and drops the key. */
    method ReleaseAtlas(atlasPath: string)
      modifies this
      ensures old(Valid()) ==> Valid()
      ensures var s := ReleaseAtlasSpec(old(atlasDict), atlasPath);
              atlasDict == s.dict && events == old(events) + s.log
      ensures loadedUiDict == old(loadedUiDict) && defaultSprite == old(defaultSprite)
    {
      if atlasPath in atlasDict {
        events := events + [DestroyAtlas(atlasPath, atlasDict[atlasPath])];
      }
      atlasDict := atlasDict - {atlasPath};
    }

    /** Destroys every cached atlas, in enumeration order (`order`), then empties the cache. */
    method ReleaseAllAtlas() returns (ghost order: seq<string>)
      modifies this
      ensures old(Valid()) ==> Valid()
      ensures atlasDict == map[]
      ensures NoDuplicates(order)
      ensures forall n :: n in order <==> n in old(atlasDict)
      ensures AllCached(order, old(atlasDict))
      ensures events == old(events) + ReleaseLog(order, old(atlasDict))
      ensures loadedUiDict == old(loadedUiDict) && defaultSprite == old(defaultSprite)
    {
      order := [];
      var unvisited := atlasDict.Keys;
      while unvisited != {}
        invariant unvisited <= atlasDict.Keys
        invariant atlasDict == old(atlasDict) && loadedUiDict == old(loadedUiDict) && defaultSprite == old(defaultSprite)
        invariant NoDuplicates(order) && AllCached(order, atlasDict)
        invariant forall n :: n in order <==> n in atlasDict && n !in unvisited
        invariant events == old(events) + ReleaseLog(order, atlasDict)
        decreases unvisited
      {
        var n :| n in unvisited;
        unvisited := unvisited - {n};
        ghost var before := order;
        order := order + [n];
        assert order[..|order| - 1] == before;
        events := events + [DestroyAtlas(n, atlasDict[n])];
      }
      atlasDict := map[];
    }

    /** The sprite `spriteName` of atlas `atlasName`, falling back to the default sprite. */
    method GetSprite(spriteName: string, atlasName: string, engine: Engine) returns (sprite: Option<Sprite>)
      modifies this
      ensures old(Valid()) ==> Valid()
      ensures var s := GetSpriteSpec(old(atlasDict), old(defaultSprite), uiAtlasFolder, defaultSpritePath, engine, spriteName, atlasName);
              atlasDict == s.atlasDict && defaultSprite == s.cached && sprite == s.sprite && events == old(events) + s.log
      ensures loadedUiDict == old(loadedUiDict)
    {
      var spriteAtlas := GetAtlas(atlasName, engine);
      if spriteAtlas.None? {
        sprite := GetDefaultSprite(engine);
        return;
      }
      var found := engine.spriteOf(spriteAtlas.value, spriteName);
      if found.None? {
        sprite := GetDefaultSprite(engine);
        return;
      }
      sprite := found;
    }

    /** The cached default sprite, loaded while none is cached. */
    method GetDefaultSprite(engine: Engine) returns (sprite: Option<Sprite>)
      modifies this
      ensures old(Valid()) ==> Valid()
      ensures var s := DefaultSpriteSpec(old(defaultSprite), defaultSpritePath, engine);
              defaultSprite == s.cached && sprite == s.sprite && events == old(events) + s.log
      ensures loadedUiDict == old(loadedUiDict) && atlasDict == old(atlasDict)
    {
      if defaultSprite.None? {
        events := events + [LoadAsset(defaultSpritePath)];
        defaultSprite := engine.loadSprite(defaultSpritePath);
      }
      sprite := defaultSprite;
    }
  }
}
