/**
 * The entities the UI manager caches, the engine services it calls (as
 * oracles), the log of side effects it causes, and the specification of
 * every cache operation as a function of the cache state before the call.
 */
module UiCache {
  import opened Wrappers

  /** Identity of a UiBase subclass: the `typeof(T)` key of the UI cache. */
  type UiType = string

  /** The asset id a UI type is bound to by its BindingResource attribute. */
  type AssetId = string

  /**
   * State of a UI screen. The enumeration is declared outside this model;
   * the manager only distinguishes US_SHOW from every other state.
   */
  datatype UiState = UsShow | UsOther(code: int)

  /** A UiBase instance: its identity, its "don't destroy" flag and its state. */
  datatype Ui = Ui(id: nat, isDontDestroy: bool, state: UiState)

  /** A loaded SpriteAtlas handle. */
  datatype Atlas = Atlas(id: nat)

  /** A Sprite handle. */
  datatype Sprite = Sprite(id: nat)

  /** The optional completion callback handed to open and close. */
  datatype Callback = NoCallback | Callback(id: nat)

  /** One observable side effect of the manager on the engine or on a UI. */
  datatype Event =
    | LoadAsset(path: string)
    | StrategyCreate(prefab: Ui)
    | OnCreate(uiType: UiType, ui: Ui)
    | StrategyClear
    | OnRuin(uiType: UiType, ui: Ui)
    | DestroyUi(uiType: UiType, ui: Ui)
    | StrategyOpen(target: Option<Ui>, cb: Callback)
    | Close(uiType: UiType, ui: Ui, cb: Callback)
    | StrategyOperate(op: int)
    | Refresh(uiType: UiType, ui: Ui)
    | DestroyAtlas(name: string, atlas: Atlas)

  /**
   * The engine services the manager calls: resource loading by path (null
   * on failure), instantiation of a loaded prefab by the layout strategy,
   * and sprite lookup inside an atlas.
   */
  datatype Engine = Engine(
    loadUi: AssetId -> Option<Ui>,
    instantiate: Ui -> Ui,
    loadAtlas: string -> Option<Atlas>,
    loadSprite: string -> Option<Sprite>,
    spriteOf: (Atlas, string) -> Option<Sprite>)

  type UiDict = map<UiType, Option<Ui>>
  type AtlasDict = map<string, Atlas>

  predicate NoDuplicates<T(==)>(s: seq<T>) {
    forall i, j :: 0 <= i < j < |s| ==> s[i] != s[j]
  }

  lemma NoDuplicatesPrefix<T>(s: seq<T>)
    requires NoDuplicates(s) && s != []
    ensures NoDuplicates(s[..|s| - 1]) && s[|s| - 1] !in s[..|s| - 1]
  {
  }

  // ---------------------------------------------------------------------
  // Passes over a dictionary
  // ---------------------------------------------------------------------

  /** The events a pass over a dictionary causes on the entry of each key. */
  type Effects = map<string, seq<Event>>

  /** The events of a pass that visits the keys of `order`, in that order. */
  function Trace(order: seq<string>, effects: Effects): seq<Event>
    requires forall k :: k in order ==> k in effects
  {
    if order == [] then []
    else Trace(order[..|order| - 1], effects) + effects[order[|order| - 1]]
  }

  /** Every event of a pass is an effect on a visited key. */
  lemma {:induction false} TraceSubjects(order: seq<string>, effects: Effects)
    requires forall k :: k in order ==> k in effects
    ensures forall e :: e in Trace(order, effects) ==> exists k :: k in order && e in effects[k]
  {
    if order != [] {
      var init, last := order[..|order| - 1], order[|order| - 1];
      assert order == init + [last];
      TraceSubjects(init, effects);
      forall e | e in Trace(order, effects)
        ensures exists k :: k in order && e in effects[k]
      {
        if e in Trace(init, effects) {
          var k :| k in init && e in effects[k];
          assert k in order;
        } else {
          assert e in effects[last];
        }
      }
    }
  }

  /**
   * With no key visited twice, an event that only key `k`'s entry causes,
   * once, occurs exactly once in the pass when `k` is visited, and never otherwise.
   */
  lemma {:induction false} TraceExactlyOnce(order: seq<string>, effects: Effects, k: string, e: Event)
    requires forall j :: j in order ==> j in effects
    requires NoDuplicates(order)
    requires k in effects && multiset(effects[k])[e] == 1
    requires forall j :: j in order && j != k ==> multiset(effects[j])[e] == 0
    ensures multiset(Trace(order, effects))[e] == if k in order then 1 else 0
  {
    if order != [] {
      var init, last := order[..|order| - 1], order[|order| - 1];
      assert order == init + [last];
      NoDuplicatesPrefix(order);
      TraceExactlyOnce(init, effects, k, e);
      assert k in order <==> k in init || k == last;
    }
  }

  // ---------------------------------------------------------------------
  // Lookup in the UI cache
  // ---------------------------------------------------------------------

  /**
   * No key of the cache is mapped to null. The manager only ever stores a UI
   * it has just called OnCreate on, so its own operations keep this.
   */
  predicate NoNullEntry(dict: UiDict) {
    forall k :: k in dict ==> dict[k].Some?
  }

  /**
   * `TryGetValue` followed by a null check: a live UI is found only when the
   * key is present and its value is not null.
   */
  function TryGetUi(dict: UiDict, uiType: UiType): (r: Option<Ui>)
    ensures r.Some? <==> uiType in dict && dict[uiType].Some?
    ensures r.Some? ==> dict[uiType] == r
  {
    if uiType in dict then dict[uiType] else None
  }

  // ---------------------------------------------------------------------
  // CreateUi: get, or load and insert
  // ---------------------------------------------------------------------

  /** The cache after a CreateUi call, what it returned and what it caused. */
  datatype UiLoad = UiLoad(dict: UiDict, ui: Option<Ui>, log: seq<Event>)

  /**
   * CreateUi. A present key (even one mapped to null) is returned as it is;
   * otherwise the bound asset is loaded, and only a successful load is
   * instantiated, initialised and inserted.
   */
  function CreateUiSpec(dict: UiDict, bindings: map<UiType, AssetId>, engine: Engine, uiType: UiType): (r: UiLoad)
    requires uiType in dict || uiType in bindings
    ensures uiType in dict ==> r.ui == dict[uiType] && r.dict == dict && r.log == []
    ensures uiType !in dict ==> |r.log| > 0 && r.log[0] == LoadAsset(bindings[uiType])
    ensures uiType !in dict ==> (r.ui.Some? <==> engine.loadUi(bindings[uiType]).Some?)
    ensures uiType !in dict && engine.loadUi(bindings[uiType]).Some? ==>
      r.ui == Some(engine.instantiate(engine.loadUi(bindings[uiType]).value))
    ensures uiType !in dict && r.ui.None? ==> r.log == [LoadAsset(bindings[uiType])]
    ensures r.ui.None? ==> r.dict == dict
    ensures NoNullEntry(dict) ==> NoNullEntry(r.dict)
    ensures uiType !in dict && r.ui.Some? ==>
      && r.dict.Keys == dict.Keys + {uiType}
      && r.dict[uiType] == r.ui
      && (forall k :: k in dict ==> r.dict[k] == dict[k])
      && r.log == [LoadAsset(bindings[uiType]), StrategyCreate(engine.loadUi(bindings[uiType]).value), OnCreate(uiType, r.ui.value)]
  {
    if uiType in dict then UiLoad(dict, dict[uiType], [])
    else
      var assetId := bindings[uiType];
      match engine.loadUi(assetId)
      case None => UiLoad(dict, None, [LoadAsset(assetId)])
      case Some(prefab) =>
        var created := engine.instantiate(prefab);
        UiLoad(dict[uiType := Some(created)], Some(created),
               [LoadAsset(assetId), StrategyCreate(prefab), OnCreate(uiType, created)])
  }

  /**
   * Once CreateUi has produced a UI (or found the key), a second call returns
   * the same instance, loads nothing and leaves the cache as it is.
   */
  lemma CreateUiTwice(dict: UiDict, bindings: map<UiType, AssetId>, engine: Engine, uiType: UiType)
    requires uiType in dict || uiType in bindings
    ensures var first := CreateUiSpec(dict, bindings, engine, uiType);
            first.ui.Some? || uiType in dict ==>
              CreateUiSpec(first.dict, bindings, engine, uiType) == UiLoad(first.dict, first.ui, [])
  {
  }

  /**
   * A key whose value is null is never reloaded: CreateUi keeps returning
   * null for it without calling the loader.
   */
  lemma CreateUiStaleEntry(dict: UiDict, bindings: map<UiType, AssetId>, engine: Engine, uiType: UiType)
    requires uiType in dict && dict[uiType].None?
    ensures TryGetUi(dict, uiType).None?
    ensures CreateUiSpec(dict, bindings, engine, uiType) == UiLoad(dict, None, [])
  {
  }

  // ---------------------------------------------------------------------
  // DestroyAllUi: filtered two-phase removal
  // ---------------------------------------------------------------------

  /** An entry DestroyAllUi removes: a live UI without the "don't destroy" flag. */
  predicate Doomed(entry: Option<Ui>) {
    entry.Some? && !entry.value.isDontDestroy
  }

  function DoomedKeys(dict: UiDict): set<UiType> {
    set k | k in dict && Doomed(dict[k])
  }

  /**
   * The cache after DestroyAllUi: exactly the doomed keys are gone, and every
   * null or "don't destroy" entry stays with its value.
   */
  function Survivors(dict: UiDict): (r: UiDict)
    ensures r.Keys == dict.Keys - DoomedKeys(dict)
    ensures forall k :: k in dict && (dict[k].None? || dict[k].value.isDontDestroy) ==> k in r
    ensures forall k :: k in r ==> r[k] == dict[k]
    ensures DoomedKeys(r) == {}
    ensures NoNullEntry(dict) ==> NoNullEntry(r)
  {
    var r := map k | k in dict && !Doomed(dict[k]) :: dict[k];
    assert r.Keys == dict.Keys - DoomedKeys(dict);
    r
  }

  /** A second DestroyAllUi removes nothing more. */
  lemma DestroyAllUiTwice(dict: UiDict)
    ensures Survivors(Survivors(dict)) == Survivors(dict)
  {
  }

  /** Every key of `order` is present with a live UI. */
  predicate AllLive(order: seq<UiType>, dict: UiDict) {
    forall k :: k in order ==> k in dict && dict[k].Some?
  }

  /** What DestroyAllUi does to a live entry: OnRuin, then Destroy. */
  function RuinEffects(dict: UiDict): Effects {
    map k | k in dict && dict[k].Some? :: [OnRuin(k, dict[k].value), DestroyUi(k, dict[k].value)]
  }

  /** The OnRuin and Destroy calls made on the UIs of `order`, in that order. */
  function RuinLog(order: seq<UiType>, dict: UiDict): seq<Event>
    requires AllLive(order, dict)
  {
    Trace(order, RuinEffects(dict))
  }

  /** Every OnRuin and Destroy call of RuinLog is on a key of `order`, with that key's UI. */
  lemma RuinLogSubjects(order: seq<UiType>, dict: UiDict)
    requires AllLive(order, dict)
    ensures forall e :: e in RuinLog(order, dict) ==>
      (e.OnRuin? || e.DestroyUi?) && e.uiType in order && dict[e.uiType] == Some(e.ui)
  {
    TraceSubjects(order, RuinEffects(dict));
    forall e | e in RuinLog(order, dict)
      ensures (e.OnRuin? || e.DestroyUi?) && e.uiType in order && dict[e.uiType] == Some(e.ui)
    {
      var k :| k in order && e in RuinEffects(dict)[k];
    }
  }

  /** OnRuin and Destroy are called exactly once on each key of `order`, never on another key. */
  lemma RuinLogExactlyOnce(order: seq<UiType>, dict: UiDict, k: UiType)
    requires AllLive(order, dict) && NoDuplicates(order)
    requires k in dict && dict[k].Some?
    ensures multiset(RuinLog(order, dict))[OnRuin(k, dict[k].value)] == if k in order then 1 else 0
    ensures multiset(RuinLog(order, dict))[DestroyUi(k, dict[k].value)] == if k in order then 1 else 0
  {
    var effects, u := RuinEffects(dict), dict[k].value;
    assert effects[k] == [OnRuin(k, u), DestroyUi(k, u)];
    forall j | j in order && j != k
      ensures multiset(effects[j])[OnRuin(k, u)] == 0 && multiset(effects[j])[DestroyUi(k, u)] == 0
    {
      assert effects[j] == [OnRuin(j, dict[j].value), DestroyUi(j, dict[j].value)];
    }
    TraceExactlyOnce(order, effects, k, OnRuin(k, u));
    TraceExactlyOnce(order, effects, k, DestroyUi(k, u));
  }

  // ---------------------------------------------------------------------
  // RefreshUi
  // ---------------------------------------------------------------------

  /** An entry RefreshUi refreshes: a live UI in state US_SHOW. */
  predicate Shown(entry: Option<Ui>) {
    entry.Some? && entry.value.state == UsShow
  }

  function ShownKeys(dict: UiDict): set<UiType> {
    set k | k in dict && Shown(dict[k])
  }

  /** What RefreshUi does to a live entry: Refresh. */
  function RefreshEffects(dict: UiDict): Effects {
    map k | k in dict && dict[k].Some? :: [Refresh(k, dict[k].value)]
  }

  /** The Refresh calls made on the UIs of `order`, in that order. */
  function RefreshLog(order: seq<UiType>, dict: UiDict): seq<Event>
    requires AllLive(order, dict)
  {
    Trace(order, RefreshEffects(dict))
  }

  /** Every event of RefreshLog is a Refresh of a key of `order`, with that key's UI. */
  lemma RefreshLogSubjects(order: seq<UiType>, dict: UiDict)
    requires AllLive(order, dict)
    ensures forall e :: e in RefreshLog(order, dict) ==>
      e.Refresh? && e.uiType in order && dict[e.uiType] == Some(e.ui)
  {
    TraceSubjects(order, RefreshEffects(dict));
    forall e | e in RefreshLog(order, dict)
      ensures e.Refresh? && e.uiType in order && dict[e.uiType] == Some(e.ui)
    {
      var k :| k in order && e in RefreshEffects(dict)[k];
    }
  }

  /** Refresh is called exactly once on each key of `order`, never on another key. */
  lemma RefreshLogExactlyOnce(order: seq<UiType>, dict: UiDict, k: UiType)
    requires AllLive(order, dict) && NoDuplicates(order)
    requires k in dict && dict[k].Some?
    ensures multiset(RefreshLog(order, dict))[Refresh(k, dict[k].value)] == if k in order then 1 else 0
  {
    var effects, u := RefreshEffects(dict), dict[k].value;
    assert effects[k] == [Refresh(k, u)];
    forall j | j in order && j != k
      ensures multiset(effects[j])[Refresh(k, u)] == 0
    {
      assert effects[j] == [Refresh(j, dict[j].value)];
    }
    TraceExactlyOnce(order, effects, k, Refresh(k, u));
  }

  // ---------------------------------------------------------------------
  // Atlas cache
  // ---------------------------------------------------------------------

  /** The atlas cache after GetAtlas, what it returned and what it caused. */
  datatype AtlasLoad = AtlasLoad(dict: AtlasDict, atlas: Option<Atlas>, log: seq<Event>)

  /** The resource path of an atlas: the atlas folder followed by its name. */
  function AtlasPath(folder: string, atlasName: string): (path: string)
    ensures |path| == |folder| + |atlasName| && path[..|folder|] == folder && path[|folder|..] == atlasName
  {
    folder + atlasName
  }

  /** Two atlases of one folder are loaded from one path only when their names agree. */
  lemma AtlasPathInjective(folder: string, a: string, b: string)
    requires AtlasPath(folder, a) == AtlasPath(folder, b)
    ensures a == b
  {
    assert a == AtlasPath(folder, a)[|folder|..];
  }

  /**
   * GetAtlas: a cached atlas is returned without loading; a missing one is
   * loaded from the atlas folder and cached only when the load succeeds.
   */
  function GetAtlasSpec(dict: AtlasDict, folder: string, engine: Engine, atlasName: string): (r: AtlasLoad)
    ensures r.atlas.Some? ==> atlasName in r.dict && r.dict[atlasName] == r.atlas.value
    ensures atlasName in dict ==> r.atlas == Some(dict[atlasName]) && r.dict == dict && r.log == []
    ensures atlasName !in dict ==> r.log == [LoadAsset(AtlasPath(folder, atlasName))]
    ensures atlasName !in dict ==> r.atlas == engine.loadAtlas(AtlasPath(folder, atlasName))
    ensures r.atlas.None? <==> atlasName !in dict && engine.loadAtlas(AtlasPath(folder, atlasName)).None?
    ensures r.atlas.None? ==> r.dict == dict
    ensures r.dict.Keys == dict.Keys + (if r.atlas.Some? then {atlasName} else {})
    ensures forall k :: k in dict ==> k in r.dict && r.dict[k] == dict[k]
  {
    if atlasName in dict then AtlasLoad(dict, Some(dict[atlasName]), [])
    else
      var path := AtlasPath(folder, atlasName);
      match engine.loadAtlas(path)
      case None => AtlasLoad(dict, None, [LoadAsset(path)])
      case Some(atlas) => AtlasLoad(dict[atlasName := atlas], Some(atlas), [LoadAsset(path)])
  }

  /** After a successful GetAtlas, asking again is a cache hit that returns the same atlas. */
  lemma GetAtlasTwice(dict: AtlasDict, folder: string, engine: Engine, atlasName: string)
    ensures var first := GetAtlasSpec(dict, folder, engine, atlasName);
            first.atlas.Some? ==> GetAtlasSpec(first.dict, folder, engine, atlasName) == AtlasLoad(first.dict, first.atlas, [])
  {
  }

  /** The atlas cache after ReleaseAtlas and the Destroy call it made, if any. */
  datatype AtlasRelease = AtlasRelease(dict: AtlasDict, log: seq<Event>)

  /** ReleaseAtlas: destroy the cached atlas if there is one, and drop its key. */
  function ReleaseAtlasSpec(dict: AtlasDict, atlasName: string): (r: AtlasRelease)
    ensures atlasName !in r.dict
    ensures r.dict.Keys == dict.Keys - {atlasName}
    ensures forall k :: k in r.dict ==> r.dict[k] == dict[k]
    ensures atlasName in dict ==> r.log == [DestroyAtlas(atlasName, dict[atlasName])]
    ensures atlasName !in dict ==> r.log == []
  {
    var log := if atlasName in dict then [DestroyAtlas(atlasName, dict[atlasName])] else [];
    AtlasRelease(dict - {atlasName}, log)
  }

  /** Releasing a name twice is releasing it once: the second call changes and destroys nothing. */
  lemma ReleaseAtlasIdempotent(dict: AtlasDict, atlasName: string)
    ensures var first := ReleaseAtlasSpec(dict, atlasName);
            ReleaseAtlasSpec(first.dict, atlasName) == AtlasRelease(first.dict, [])
  {
  }

  /** A name released right after being loaded is no longer cached, and its atlas is destroyed. */
  lemma ReleaseAfterGetAtlas(dict: AtlasDict, folder: string, engine: Engine, atlasName: string)
    ensures var got := GetAtlasSpec(dict, folder, engine, atlasName);
            var released := ReleaseAtlasSpec(got.dict, atlasName);
            && released.dict == dict - {atlasName}
            && (got.atlas.Some? ==> released.log == [DestroyAtlas(atlasName, got.atlas.value)])
  {
  }

  /** Every name of `order` is cached. */
  predicate AllCached(order: seq<string>, dict: AtlasDict) {
    forall n :: n in order ==> n in dict
  }

  /** What ReleaseAllAtlas does to a cached atlas: Destroy. */
  function ReleaseEffects(dict: AtlasDict): Effects {
    map n | n in dict :: [DestroyAtlas(n, dict[n])]
  }

  /** The Destroy calls made on the atlases of `order`, in that order. */
  function ReleaseLog(order: seq<string>, dict: AtlasDict): seq<Event>
    requires AllCached(order, dict)
  {
    Trace(order, ReleaseEffects(dict))
  }

  /** Every event of ReleaseLog destroys the atlas cached under a name of `order`. */
  lemma ReleaseLogSubjects(order: seq<string>, dict: AtlasDict)
    requires AllCached(order, dict)
    ensures forall e :: e in ReleaseLog(order, dict) ==>
      e.DestroyAtlas? && e.name in order && dict[e.name] == e.atlas
  {
    TraceSubjects(order, ReleaseEffects(dict));
    forall e | e in ReleaseLog(order, dict)
      ensures e.DestroyAtlas? && e.name in order && dict[e.name] == e.atlas
    {
      var n :| n in order && e in ReleaseEffects(dict)[n];
    }
  }

  /** The atlas cached under each name of `order` is destroyed exactly once. */
  lemma ReleaseLogExactlyOnce(order: seq<string>, dict: AtlasDict, atlasName: string)
    requires AllCached(order, dict) && NoDuplicates(order)
    requires atlasName in dict
    ensures multiset(ReleaseLog(order, dict))[DestroyAtlas(atlasName, dict[atlasName])] == if atlasName in order then 1 else 0
  {
    var effects, e := ReleaseEffects(dict), DestroyAtlas(atlasName, dict[atlasName]);
    assert effects[atlasName] == [e];
    forall n | n in order && n != atlasName
      ensures multiset(effects[n])[e] == 0
    {
      assert effects[n] == [DestroyAtlas(n, dict[n])];
    }
    TraceExactlyOnce(order, effects, atlasName, e);
  }

  // ---------------------------------------------------------------------
  // Sprites
  // ---------------------------------------------------------------------

  /** The cached default sprite after getDefaultSprite, what it returned and what it caused. */
  datatype SpriteLoad = SpriteLoad(cached: Option<Sprite>, sprite: Option<Sprite>, log: seq<Event>)

  /**
   * getDefaultSprite: the cached default sprite, loaded from its path only
   * while none is cached; a failed load leaves the cache empty.
   */
  function DefaultSpriteSpec(cached: Option<Sprite>, path: string, engine: Engine): (r: SpriteLoad)
    ensures r.sprite == r.cached
    ensures cached.Some? ==> r.cached == cached && r.log == []
    ensures cached.None? ==> r.cached == engine.loadSprite(path) && r.log == [LoadAsset(path)]
  {
    if cached.Some? then SpriteLoad(cached, cached, [])
    else
      var loaded := engine.loadSprite(path);
      SpriteLoad(loaded, loaded, [LoadAsset(path)])
  }

  /** Once a default sprite is loaded it is never loaded again. */
  lemma DefaultSpriteLoadedOnce(cached: Option<Sprite>, path: string, engine: Engine)
    ensures var first := DefaultSpriteSpec(cached, path, engine);
            first.sprite.Some? ==> DefaultSpriteSpec(first.cached, path, engine) == SpriteLoad(first.cached, first.sprite, [])
  {
  }

  /** The caches after GetSprite, what it returned and what it caused. */
  datatype SpriteLookup = SpriteLookup(atlasDict: AtlasDict, cached: Option<Sprite>, sprite: Option<Sprite>, log: seq<Event>)

  /**
   * GetSprite: the named sprite of the named atlas when both exist, and
   * otherwise the default sprite.
   */
  function GetSpriteSpec(
    atlasDict: AtlasDict, cached: Option<Sprite>, folder: string, defaultPath: string,
    engine: Engine, spriteName: string, atlasName: string): (r: SpriteLookup)
    ensures var got := GetAtlasSpec(atlasDict, folder, engine, atlasName);
      && r.atlasDict == got.dict
      && (got.atlas.Some? && engine.spriteOf(got.atlas.value, spriteName).Some? ==>
            r.sprite == engine.spriteOf(got.atlas.value, spriteName) && r.cached == cached && r.log == got.log)
      && (got.atlas.None? || engine.spriteOf(got.atlas.value, spriteName).None? ==>
            var fallback := DefaultSpriteSpec(cached, defaultPath, engine);
            r.sprite == r.cached == fallback.cached && r.log == got.log + fallback.log)
    ensures cached.Some? ==> r.sprite.Some? && r.cached == cached
    ensures r.sprite.None? ==> r.cached.None?
  {
    var got := GetAtlasSpec(atlasDict, folder, engine, atlasName);
    var found := if got.atlas.Some? then engine.spriteOf(got.atlas.value, spriteName) else None;
    if found.Some? then SpriteLookup(got.dict, cached, found, got.log)
    else
      var fallback := DefaultSpriteSpec(cached, defaultPath, engine);
      SpriteLookup(got.dict, fallback.cached, fallback.sprite, got.log + fallback.log)
  }
}
