# UiManager cache model

A Dafny model of the cache bookkeeping of the `UiManager` singleton of a Unity
game (namespace `act.ui`). The manager keeps:

- `loadedUiDict`, a dictionary from a UI screen type to its single instance
  (the value may be null);
- `atlasDict`, a dictionary from an atlas name to a loaded sprite atlas;
- `DefaultSprite`, a lazily loaded fallback sprite.

The model has three files:

- `wrappers.dfy` (module `Wrappers`) holds `Option`. `None` plays the part of a
  null reference.
- `ui_cache.dfy` (module `UiCache`) holds the entities, the engine services as
  oracles, and the log of side effects. It also gives every cache operation a
  specification function of the state before the call, with the lemmas about
  those functions.
- `ui_manager.dfy` (module `Manager`) holds the class `UiManager`. Its fields
  `loadedUiDict`, `atlasDict` and `defaultSprite` are updated in place by
  methods that follow the source step by step. Each method is proved against
  the specification functions.

Engine services are abstracted as follows:

- Resource loading is an `Engine` record of total functions that return an
  `Option`. Every load the manager asks for is logged as `LoadAsset(p)`. For a
  UI, `p` is the asset id of its `BindingResource` attribute. For an atlas or
  the default sprite, `p` is the resource path.
- The layout strategy's `CreateUi` is the oracle `Engine.instantiate`.
- `SpriteAtlas.GetSprite` is the oracle `Engine.spriteOf`.
- Reflection on the `BindingResource` attribute is the fixed map `bindings`,
  from a UI type to its asset id.
- The resource folder constants are the class constants `uiAtlasFolder` and
  `defaultSpritePath`.

The effects below are appended to the ghost log `events`:

- `OnCreate`, `OnRuin`, `Destroy`, `Refresh` and `Close` on a UI;
- `Destroy` on an atlas;
- the strategy's `CreateUi` (as `StrategyCreate`, with the loaded prefab),
  `Clear`, `OpenUi` and `OperateUi`.

The order in which a C# `Dictionary` enumerates its entries is unspecified. The
loops therefore pick their next key nondeterministically, and they return the
order they used as a ghost out-parameter. All three passes share one
definition of their log, `Trace`: the passes differ only in what they do to
each visited entry.

Null entries in the UI cache:

- The manager stores a UI only after it has called `OnCreate` on it. A C# null
  therefore never enters `loadedUiDict`. The class invariant `Valid()` ("no
  entry is null") holds after construction, and every method keeps it.
- A null entry could only be a UI that the engine destroyed behind the
  manager's back (Unity's overloaded null). The model keeps the code's
  branches for such entries, but its own operations never reach them:
  - `TryGetValue` succeeds on a key mapped to null, so `CreateUi` returns null
    for that key and never reloads it (`CreateUiStaleEntry`).
  - `DestroyAllUi` keeps null entries.
  - `RefreshUi` reads `State` of every entry. For a null entry the model stops
    the pass and returns `completed == false`. Whether reading `State` of a
    destroyed UI throws depends on `UiBase`, which is not part of this model.
  - While `Valid()` holds, the pass always completes, and it refreshes exactly
    the US_SHOW UIs.

Other behaviour of the code that the model keeps:

- `CreateUi` dereferences the `BindingResource` attribute without a null check.
  A type that is neither cached nor bound therefore crashes the source, and
  `CreateUi` and `OpenUi` require that it is one or the other.
- `GetAtlas` writes the atlas back into the dictionary even on a hit. The model
  does the same, and the map is provably unchanged.

## Model

| member | source | states |
|---|---|---|
| UiCache.TryGetUi | Assets/Scripts/UI/Base/UiManager.cs:94-95 | lookup then null check finds a UI exactly when the key is present with a non-null value, and returns that value |
| UiCache.CreateUiSpec | Assets/Scripts/UI/Base/UiManager.cs:42-63 | a present key returns its cached value (null included), with no load and the map unchanged; a miss loads the bound asset id; a failed load returns null, leaves the map unchanged and logs only that load; a successful one returns the strategy's instance of the loaded prefab, adds exactly `uiType` mapped to it, keeps every other entry, and logs load, strategy create and OnCreate; no null entry is ever added |
| UiCache.CreateUiTwice | Assets/Scripts/UI/Base/UiManager.cs:45-48 | after a call that found or created a UI, a second call returns the same instance, loads nothing and leaves the map unchanged |
| UiCache.CreateUiStaleEntry | Assets/Scripts/UI/Base/UiManager.cs:45-48 | a key mapped to null is not a live UI for OpenUi, and CreateUi returns null for it with no load and no change |
| UiCache.Survivors | Assets/Scripts/UI/Base/UiManager.cs:69-89 | the keys left are the original keys minus those whose value is non-null and not IsDontDestroy; null and dont-destroy entries are kept with their values; no doomed key remains; no null entry is introduced |
| UiCache.DestroyAllUiTwice | Assets/Scripts/UI/Base/UiManager.cs:65-90 | destroying all UIs a second time changes nothing |
| UiCache.TraceSubjects | Assets/Scripts/UI/Base/UiManager.cs:69-84 | every event of a pass over a dictionary is an effect on a visited key |
| UiCache.TraceExactlyOnce | Assets/Scripts/UI/Base/UiManager.cs:69-84 | with no key visited twice, an event that only one key's entry causes, once, occurs exactly once in the pass when that key is visited, and never otherwise |
| UiCache.RuinLogSubjects | Assets/Scripts/UI/Base/UiManager.cs:81-83 | every OnRuin and Destroy call of the destroy pass is on a collected key, with that key's UI |
| UiCache.RuinLogExactlyOnce | Assets/Scripts/UI/Base/UiManager.cs:81-83 | with no key collected twice, OnRuin and Destroy happen exactly once on the UI of each collected key and never on another key's UI |
| UiCache.RefreshLogSubjects | Assets/Scripts/UI/Base/UiManager.cs:122-128 | every event of the refresh pass is a Refresh of a visited key, with that key's UI |
| UiCache.RefreshLogExactlyOnce | Assets/Scripts/UI/Base/UiManager.cs:122-128 | Refresh happens exactly once on each refreshed key's UI and never on another |
| UiCache.AtlasPath | Assets/Scripts/UI/Base/UiManager.cs:137 | the atlas path is the atlas folder followed by the name |
| UiCache.AtlasPathInjective | Assets/Scripts/UI/Base/UiManager.cs:137 | two names load from the same path only when they are equal |
| UiCache.GetAtlasSpec | Assets/Scripts/UI/Base/UiManager.cs:132-148 | a non-null result is what `atlasDict[atlasName]` holds afterwards; a hit returns the cached atlas with no load and no change; a miss loads folder+name once; a failed load returns null and leaves the map unchanged; the only key ever added is `atlasName`, and existing entries keep their values |
| UiCache.GetAtlasTwice | Assets/Scripts/UI/Base/UiManager.cs:134-147 | after a successful GetAtlas, a second one is a hit that returns the same atlas with no load |
| UiCache.ReleaseAtlasSpec | Assets/Scripts/UI/Base/UiManager.cs:150-159 | afterwards the name is not a key, every other entry is unchanged, and Destroy was called on the cached atlas only when there was one |
| UiCache.ReleaseAtlasIdempotent | Assets/Scripts/UI/Base/UiManager.cs:150-159 | releasing a name twice equals releasing it once, and the second release destroys nothing |
| UiCache.ReleaseAfterGetAtlas | Assets/Scripts/UI/Base/UiManager.cs:132-159 | a release right after a get leaves the map without the name, and destroys exactly the atlas that the get returned |
| UiCache.ReleaseLogSubjects | Assets/Scripts/UI/Base/UiManager.cs:163-166 | every event of the release-all pass destroys the atlas cached under a visited name |
| UiCache.ReleaseLogExactlyOnce | Assets/Scripts/UI/Base/UiManager.cs:163-166 | each visited name's atlas is destroyed exactly once |
| UiCache.DefaultSpriteSpec | Assets/Scripts/UI/Base/UiManager.cs:188-196 | the result is the cached default sprite; it is loaded from the default path only while none is cached; a failed load leaves the cache empty |
| UiCache.DefaultSpriteLoadedOnce | Assets/Scripts/UI/Base/UiManager.cs:190-193 | once the default sprite has loaded, it is never loaded again and the same sprite is returned |
| UiCache.GetSpriteSpec | Assets/Scripts/UI/Base/UiManager.cs:171-186 | the atlas cache changes as in GetAtlas; when the atlas exists and holds the sprite, that sprite is returned and the default sprite is not touched; otherwise the default sprite is returned; once a default sprite is cached, the result is never null; a null result means no default sprite could be loaded |
| Manager.UiManager.constructor | Assets/Scripts/UI/Base/UiManager.cs:26-34 | both caches start empty, with no default sprite and no events, and the no-null-entry invariant holds |
| Manager.UiManager.CreateUi | Assets/Scripts/UI/Base/UiManager.cs:42-63 | the new UI map, the result and the logged effects are those of CreateUiSpec; the atlas cache and the default sprite are unchanged |
| Manager.UiManager.DestroyAllUi | Assets/Scripts/UI/Base/UiManager.cs:65-90 | the map becomes Survivors of the old one and keeps the invariant; the strategy is cleared first; the collected keys are exactly the doomed keys, each collected once; OnRuin then Destroy is logged for each, in enumeration order |
| Manager.UiManager.RemoveAll | Assets/Scripts/UI/Base/UiManager.cs:86-89 | the counted removal loop removes exactly the collected keys and keeps every other value |
| Manager.UiManager.OpenUi | Assets/Scripts/UI/Base/UiManager.cs:92-101 | a live cached UI is handed to the strategy unchanged; otherwise CreateUi runs first and its result (possibly null) is handed to the strategy with the callback |
| Manager.UiManager.CloseUi | Assets/Scripts/UI/Base/UiManager.cs:103-113 | Close with the callback is called on the cached UI when a live one exists, and nothing happens otherwise; the caches are unchanged |
| Manager.UiManager.OperateUi | Assets/Scripts/UI/Base/UiManager.cs:115-118 | the operation code is passed to the strategy, and nothing else changes |
| Manager.UiManager.RefreshUi | Assets/Scripts/UI/Base/UiManager.cs:120-129 | the caches are unchanged; the pass completes exactly when no entry is null, so always under the class invariant; only US_SHOW UIs are refreshed, each once, and all of them when the pass completes |
| Manager.UiManager.GetAtlas | Assets/Scripts/UI/Base/UiManager.cs:132-148 | the new atlas map, the result and the logged load are those of GetAtlasSpec |
| Manager.UiManager.ReleaseAtlas | Assets/Scripts/UI/Base/UiManager.cs:150-159 | the new atlas map and the Destroy call are those of ReleaseAtlasSpec |
| Manager.UiManager.ReleaseAllAtlas | Assets/Scripts/UI/Base/UiManager.cs:161-169 | the atlas map becomes empty after Destroy is logged once for every name it held, in enumeration order |
| Manager.UiManager.GetSprite | Assets/Scripts/UI/Base/UiManager.cs:171-186 | the caches, the result and the logged loads are those of GetSpriteSpec |
| Manager.UiManager.GetDefaultSprite | Assets/Scripts/UI/Base/UiManager.cs:188-196 | the cached default sprite, the result and the logged load are those of DefaultSpriteSpec |

## Left out

- Unity's overloaded null for destroyed objects is modelled only as a `None` entry in the UI cache, which the model's own operations never create. The engine destroying a UI behind the manager's back is not modelled. A stored atlas is never null, because only successful loads are inserted.
- The layout strategy (`UiManageStrategy`: `CreateUi`, `OpenUi`, `Clear`, `OperateUi`, `MainRoot`) is not part of this model. Its calls are logged events, and its `CreateUi` is the `instantiate` oracle. The UI state changes it makes are not tracked.
- The completion callbacks are opaque tokens. The model passes them on but never invokes them.
- Engine services (`LoadResources.LoadAsset`, `Destroy`, `Attribute.GetCustomAttribute`, `SpriteAtlas.GetSprite`) are oracles or logged events.
- The resource path constants of `ResourcesPathSetting` are not part of this model. They are class constants fixed at construction.
- `calculateAdaptation` is floating-point screen and canvas math and is not modelled.
- `WorldToUiPoint` passes straight through to engine geometry and is not modelled.
- Not modelled: logging, the `Init`/`Start` lifecycle hooks, the unused `materialDict`, the layer constants, the serialized camera and canvas references, and the `UiCamera`/`MainRoot` properties.
- Manager.UiManager.RefreshUi: a null entry (a destroyed UI) ends the pass early with `completed == false`. Whether that read throws in the source depends on `UiBase`, which is not part of this model, and how an exception would propagate is not modelled.
- A null atlas name is not modelled, because Dafny strings cannot be null. The source's `GetAtlas(null)` and `ReleaseAtlas(null)` throw `ArgumentNullException` from `TryGetValue`.
- Manager.UiManager.CreateUi: requires the type to be cached or bound. A type with neither crashes the source on the missing attribute, and the model leaves that crash out.
