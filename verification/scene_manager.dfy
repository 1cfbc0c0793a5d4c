/**
 * The scene host: a cache of lazily created scenes keyed by scene type, one
 * current scene, and fade transitions between them. Opacity is counted in
 * twentieths, so one fade frame moves it by exactly one step. A switch is
 * taken to run to completion before the next one starts.
 */
module Scenes {
  import opened Wrappers

  datatype SceneType = Main | Final

  /** Full opacity, in twentieths; one frame of a fade moves opacity by `FADE_STEP`. */
  const OPAQUE: int := 20
  const FADE_STEP: int := 1

  /** What the host does to scenes, in order. */
  datatype HostEvent =
    | Created(kind: SceneType)
    | FadedOut(kind: SceneType)
    | Detached(kind: SceneType)
    | Destroyed(kind: SceneType)
    | Attached(kind: SceneType)
    | FadedIn(kind: SceneType)

  /** The steps a switch takes on the outgoing scene, if there is one. */
  function Outgoing(previous: Option<SceneType>): seq<HostEvent>
  {
    match previous
    case None => []
    case Some(k) => [FadedOut(k), Detached(k), Destroyed(k)]
  }

  /** A scene as the host sees it: its type, opacity, destroyed flag, listeners and the sizes it was given. */
  class Scene {
    const kind: SceneType
    var alpha: int
    var destroyed: bool
    var listeners: nat
    var resizes: seq<(int, int)>

    constructor (kind: SceneType)
      ensures this.kind == kind && alpha == OPAQUE && !destroyed && listeners == 0 && resizes == []
    {
      this.kind := kind;
      alpha := OPAQUE;
      destroyed := false;
      listeners := 0;
      resizes := [];
    }

    method Subscribe()
      modifies this
      ensures listeners == old(listeners) + 1
      ensures alpha == old(alpha) && destroyed == old(destroyed) && resizes == old(resizes)
    {
      listeners := listeners + 1;
    }

    method Resize(width: int, height: int)
      modifies this
      ensures resizes == old(resizes) + [(width, height)]
      ensures alpha == old(alpha) && destroyed == old(destroyed) && listeners == old(listeners)
    {
      resizes := resizes + [(width, height)];
    }

    method Destroy()
      modifies this
      ensures destroyed
      ensures alpha == old(alpha) && listeners == old(listeners) && resizes == old(resizes)
    {
      destroyed := true;
    }
  }

  /** `children` without `s`, as removing a child from a container leaves them. */
  function Without(children: seq<Scene>, s: Scene): (r: seq<Scene>)
    ensures s !in r
    ensures forall c | c in children && c != s :: c in r
    ensures forall i | 0 <= i < |r| :: r[i] in children
  {
    if children == [] then []
    else if children[0] == s then Without(children[1..], s)
    else [children[0]] + Without(children[1..], s)
  }

  class SceneManager {
    var scenes: map<SceneType, Scene>
    var currentScene: Scene?
    var currentSceneType: Option<SceneType>
    /** The scenes attached to the host's container, in order. */
    var children: seq<Scene>
    ghost var events: seq<HostEvent>

    /** Every cached scene sits under its own type. */
    ghost predicate Cached()
      reads this
    {
      forall k | k in scenes :: scenes[k].kind == k
    }

    /**
     * Between switches: the current scene is the cached entry for the current
     * type, it is the only live entry and the only child, and it is opaque.
     */
    ghost predicate Valid()
      reads this, scenes.Values
    {
      && Cached()
      && (currentScene == null <==> currentSceneType == None)
      && (currentSceneType.Some? ==> currentSceneType.value in scenes && scenes[currentSceneType.value] == currentScene)
      && (forall k | k in scenes :: !scenes[k].destroyed <==> currentSceneType == Some(k))
      && children == (if currentScene == null then [] else [currentScene])
      && (currentScene != null ==> currentScene.alpha == OPAQUE)
    }

    constructor ()
      ensures Valid()
      ensures scenes == map[] && currentScene == null && currentSceneType == None && children == [] && events == []
    {
      scenes := map[];
      currentScene := null;
      currentSceneType := None;
      children := [];
      events := [];
    }

    /** Builds the scene for a type; the scene type is a closed set, so no unknown type can reach it. */
    method CreateScene(kind: SceneType) returns (s: Scene)
      ensures fresh(s) && s.kind == kind && s.alpha == OPAQUE && !s.destroyed && s.listeners == 0 && s.resizes == []
    {
      match kind
      case Main => s := new Scene(Main);
      case Final => s := new Scene(Final);
    }

    /**
     * The cached scene for `kind` when it is present and not destroyed;
     * otherwise a new scene, stored under `kind` and subscribed to once.
     */
    method EnsureScene(kind: SceneType) returns (s: Scene)
      requires Cached()
      modifies this
      ensures Cached() && kind in scenes && scenes[kind] == s && s.kind == kind
      ensures old(kind in scenes && !scenes[kind].destroyed) ==> s == old(scenes[kind]) && scenes == old(scenes) && events == old(events)
      ensures !old(kind in scenes && !scenes[kind].destroyed) ==>
                && fresh(s) && !s.destroyed && s.alpha == OPAQUE && s.listeners == 1 && s.resizes == []
                && scenes == old(scenes)[kind := s] && events == old(events) + [Created(kind)]
      ensures currentScene == old(currentScene) && currentSceneType == old(currentSceneType) && children == old(children)
    {
      if kind in scenes && !scenes[kind].destroyed {
        s := scenes[kind];
        return;
      }
      s := CreateScene(kind);
      scenes := scenes[kind := s];
      s.Subscribe();
      events := events + [Created(kind)];
    }

    /**
     * Fade-out, one loop iteration per frame: opacity is set to full, then
     * goes down one step a frame until it reaches exactly 0. `frames` lists
     * every value written, in order.
     */
    method FadeOutScene(scene: Scene) returns (frames: seq<int>)
      modifies scene
      ensures scene.alpha == 0
      ensures |frames| == OPAQUE + 1 && frames[0] == OPAQUE && frames[|frames| - 1] == 0
      ensures forall i :: 0 < i < |frames| ==> frames[i] == frames[i - 1] - FADE_STEP
      ensures forall i :: 0 <= i < |frames| ==> 0 <= frames[i] <= OPAQUE
      ensures scene.destroyed == old(scene.destroyed) && scene.listeners == old(scene.listeners)
      ensures scene.resizes == old(scene.resizes)
    {
      scene.alpha := OPAQUE;
      frames := [OPAQUE];
      while true
        invariant 0 < scene.alpha <= OPAQUE
        invariant |frames| == OPAQUE - scene.alpha + 1 && frames[|frames| - 1] == scene.alpha
        invariant frames[0] == OPAQUE
        invariant forall i :: 0 < i < |frames| ==> frames[i] == frames[i - 1] - FADE_STEP
        invariant forall i :: 0 <= i < |frames| ==> 0 < frames[i] <= OPAQUE
        invariant scene.destroyed == old(scene.destroyed) && scene.listeners == old(scene.listeners)
        invariant scene.resizes == old(scene.resizes)
        decreases scene.alpha
      {
        scene.alpha := scene.alpha - FADE_STEP;
        if scene.alpha <= 0 {
          scene.alpha := 0;
          frames := frames + [0];
          return;
        }
        frames := frames + [scene.alpha];
      }
    }

    /** Fade-in: opacity is set to 0, then goes up one step a frame until it reaches exactly full. */
    method FadeInScene(scene: Scene) returns (frames: seq<int>)
      modifies scene
      ensures scene.alpha == OPAQUE
      ensures |frames| == OPAQUE + 1 && frames[0] == 0 && frames[|frames| - 1] == OPAQUE
      ensures forall i :: 0 < i < |frames| ==> frames[i] == frames[i - 1] + FADE_STEP
      ensures forall i :: 0 <= i < |frames| ==> 0 <= frames[i] <= OPAQUE
      ensures scene.destroyed == old(scene.destroyed) && scene.listeners == old(scene.listeners)
      ensures scene.resizes == old(scene.resizes)
    {
      scene.alpha := 0;
      frames := [0];
      while true
        invariant 0 <= scene.alpha < OPAQUE
        invariant |frames| == scene.alpha + 1 && frames[|frames| - 1] == scene.alpha
        invariant frames[0] == 0
        invariant forall i :: 0 < i < |frames| ==> frames[i] == frames[i - 1] + FADE_STEP
        invariant forall i :: 0 <= i < |frames| ==> 0 <= frames[i] < OPAQUE
        invariant scene.destroyed == old(scene.destroyed) && scene.listeners == old(scene.listeners)
        invariant scene.resizes == old(scene.resizes)
        decreases OPAQUE - scene.alpha
      {
        scene.alpha := scene.alpha + FADE_STEP;
        if scene.alpha >= OPAQUE {
          scene.alpha := OPAQUE;
          frames := frames + [OPAQUE];
          return;
        }
        frames := frames + [scene.alpha];
      }
    }

    /** The outgoing half of a switch: fade out, detach from the container, destroy. */
    method Retire(outgoing: Scene)
      modifies this, outgoing
      ensures outgoing.destroyed && outgoing.alpha == 0
      ensures outgoing.listeners == old(outgoing.listeners) && outgoing.resizes == old(outgoing.resizes)
      ensures children == Without(old(children), outgoing)
      ensures events == old(events) + Outgoing(Some(outgoing.kind))
      ensures scenes == old(scenes) && currentScene == old(currentScene) && currentSceneType == old(currentSceneType)
    {
      var _ := FadeOutScene(outgoing);
      children := Without(children, outgoing);
      events := events + [FadedOut(outgoing.kind), Detached(outgoing.kind)];
      outgoing.Destroy();
      events := events + [Destroyed(outgoing.kind)];
    }

    /** The incoming half of a switch: attach, fade in, and only then record it as current. */
    method Present(incoming: Scene)
      modifies this, incoming
      ensures incoming.alpha == OPAQUE
      ensures incoming.destroyed == old(incoming.destroyed) && incoming.listeners == old(incoming.listeners)
      ensures incoming.resizes == old(incoming.resizes)
      ensures children == old(children) + [incoming]
      ensures events == old(events) + [Attached(incoming.kind), FadedIn(incoming.kind)]
      ensures currentScene == incoming && currentSceneType == Some(incoming.kind) && scenes == old(scenes)
    {
      children := children + [incoming];
      events := events + [Attached(incoming.kind)];
      var _ := FadeInScene(incoming);
      events := events + [FadedIn(incoming.kind)];
      currentScene := incoming;
      currentSceneType := Some(incoming.kind);
    }

    /**
     * Switching to the current type does nothing. Otherwise the target scene
     * is obtained from the cache (under the invariant it is always a new one,
     * as the cached entry of any other type is destroyed); the old scene fades
     * out, is detached and destroyed; the new one is attached, fades in, and
     * only then becomes current.
     */
    method SwitchScene(kind: SceneType)
      requires Valid()
      modifies this, scenes.Values
      ensures Valid()
      ensures old(currentSceneType) == Some(kind) ==>
                && scenes == old(scenes) && currentScene == old(currentScene) && children == old(children)
                && events == old(events) && (forall s | s in old(scenes.Values) :: unchanged(s))
      ensures old(currentSceneType) != Some(kind) ==>
                && currentSceneType == Some(kind) && kind in scenes && currentScene == scenes[kind]
                && fresh(currentScene) && currentScene.listeners == 1 && children == [currentScene]
                && scenes.Keys == old(scenes.Keys) + {kind}
                && (forall k | k in old(scenes) && k != kind :: scenes[k] == old(scenes[k]) && scenes[k].destroyed)
                && (forall k | k in old(scenes) && k != kind ::
                      scenes[k].listeners == old(scenes[k].listeners) && scenes[k].resizes == old(scenes[k].resizes))
                && currentScene.resizes == []
                && (old(currentScene) != null ==> old(currentScene).destroyed && old(currentScene).alpha == 0)
                && events == old(events) + [Created(kind)] + Outgoing(old(currentSceneType)) + [Attached(kind), FadedIn(kind)]
    {
      if currentSceneType == Some(kind) {
        return;
      }
      ghost var previous := currentSceneType;
      ghost var oldScenes := scenes;
      var newScene := EnsureScene(kind);
      assert fresh(newScene) && scenes == oldScenes[kind := newScene];
      ghost var afterCreate := events;
      if currentScene != null {
        var outgoing := currentScene;
        assert previous == Some(outgoing.kind) && outgoing != newScene;
        Retire(outgoing);
        assert children == [];
      }
      assert children == [];
      Present(newScene);
      assert events == afterCreate + Outgoing(previous) + [Attached(kind), FadedIn(kind)];
    }

    function GetCurrentScene(): (s: Scene?)
      requires Valid()
      reads this, scenes.Values
      ensures s != null ==> s in scenes.Values && !s.destroyed && s.alpha == OPAQUE && children == [s]
      ensures s == null <==> GetCurrentSceneType() == None
    {
      currentScene
    }

    /** The current type is the one cached type whose scene is alive. */
    function GetCurrentSceneType(): (k: Option<SceneType>)
      requires Valid()
      reads this, scenes.Values
      ensures k.Some? ==> k.value in scenes && !scenes[k.value].destroyed
      ensures forall other | other in scenes && Some(other) != k :: scenes[other].destroyed
    {
      currentSceneType
    }

    /** Every cached scene is given the new size, the destroyed ones included. */
    method Resize(width: int, height: int)
      requires Valid()
      modifies scenes.Values
      ensures Valid()
      ensures forall k | k in scenes :: scenes[k].resizes == old(scenes[k].resizes) + [(width, height)]
      ensures forall k | k in scenes :: scenes[k].alpha == old(scenes[k].alpha) && scenes[k].destroyed == old(scenes[k].destroyed)
      ensures forall k | k in scenes :: scenes[k].listeners == old(scenes[k].listeners)
    {
      var todo := scenes.Keys;
      while todo != {}
        invariant todo <= scenes.Keys
        invariant forall k | k in todo :: scenes[k].resizes == old(scenes[k].resizes)
        invariant forall k | k in scenes && k !in todo :: scenes[k].resizes == old(scenes[k].resizes) + [(width, height)]
        invariant forall s | s in scenes.Values :: s.alpha == old(s.alpha) && s.destroyed == old(s.destroyed)
        invariant forall s | s in scenes.Values :: s.listeners == old(s.listeners)
        decreases todo
      {
        var k :| k in todo;
        scenes[k].Resize(width, height);
        todo := todo - {k};
      }
    }

    /** Teardown: every cached scene is destroyed, the cache emptied, nothing is current. */
    method Destroy()
      requires Valid()
      modifies this, scenes.Values
      ensures Valid()
      ensures scenes == map[] && currentScene == null && currentSceneType == None && children == []
      ensures forall s | s in old(scenes.Values) :: s.destroyed
      ensures forall s | s in old(scenes.Values) :: s.listeners == old(s.listeners) && s.resizes == old(s.resizes)
      ensures events == old(events)
    {
      var todo := scenes.Keys;
      while todo != {}
        invariant todo <= scenes.Keys && scenes == old(scenes) && events == old(events)
        invariant forall s | s in scenes.Values :: s.listeners == old(s.listeners) && s.resizes == old(s.resizes)
        invariant forall k | k in scenes && k !in todo :: scenes[k].destroyed
        decreases todo
      {
        var k :| k in todo;
        scenes[k].Destroy();
        todo := todo - {k};
      }
      scenes := map[];
      currentScene := null;
      currentSceneType := None;
      children := [];
    }
  }
}
