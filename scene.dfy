/**
  The scene manager: named scene generators and at most one current scene.
  The generator's callback gets the scene under construction and the rest
  of the application as two separate values and gives both back, instead
  of reaching the application through a stored raw pointer.
 */
module Scenes {
  import opened Wrappers
  import opened EntityWorld

  /** `Scene`: an entity world and an optional camera. */
  datatype Scene<Cam> = Scene(world: World, camera: Option<Cam>)

  /** The scene `generate` starts from: an empty world and no camera. */
  function EmptyScene<Cam>(): (s: Scene<Cam>)
    ensures s.world.entities == [] && s.camera == None
  {
    Scene(EmptyWorld, None)
  }

  /** An `on_load` callback: `Fn(&mut Scene, &mut App)` as a function of both borrows. */
  type OnLoad<!Cam, !App> = (Scene<Cam>, App) -> (Scene<Cam>, App)

  /** `SceneGenerator`. */
  datatype SceneGenerator<!Cam, !App> = SceneGenerator(onLoad: Option<OnLoad<Cam, App>>)

  /** `SceneGenerator::new(f)`: a generator whose callback is `f`. */
  function NewGenerator<Cam, App>(f: OnLoad<Cam, App>): (g: SceneGenerator<Cam, App>)
    ensures g.onLoad == Some(f)
  {
    SceneGenerator(Some(f))
  }

  /** `SceneGenerator::on_load(f)`: replaces the callback with `f`. */
  function WithOnLoad<Cam, App>(g: SceneGenerator<Cam, App>, f: OnLoad<Cam, App>): (g': SceneGenerator<Cam, App>)
    ensures g'.onLoad == Some(f)
  {
    g.(onLoad := Some(f))
  }

  /**
    `generate(app)`: a fresh empty scene handed to the callback, if any.
    Without a callback the scene stays empty and the application untouched.
   */
  function Generate<Cam, App>(g: SceneGenerator<Cam, App>, app: App): (r: (Scene<Cam>, App))
    ensures g.onLoad.None? ==> r.0 == EmptyScene() && r.1 == app
    ensures g.onLoad.Some? ==> r == g.onLoad.value(EmptyScene(), app)
  {
    match g.onLoad
    case None => (EmptyScene(), app)
    case Some(f) => f(EmptyScene(), app)
  }

  /** `ScenesManager`. */
  class ScenesManager<!Cam, !App> {
    var scenes: map<string, SceneGenerator<Cam, App>>
    var currentScene: Option<Scene<Cam>>

    /** `ScenesManager::new`: no generators, no current scene. */
    constructor ()
      ensures scenes == map[] && currentScene == None
    {
      scenes := map[];
      currentScene := None;
    }

    /** `current()` / the shared view of `current_mut()`: exactly the stored scene. */
    function Current(): (s: Option<Scene<Cam>>)
      reads this
      ensures s == currentScene
    {
      currentScene
    }

    /** `current_mut()` followed by the caller's write `update` through the reference. */
    method CurrentMut(update: Scene<Cam> -> Scene<Cam>) returns (found: bool)
      modifies this
      ensures found <==> old(currentScene).Some?
      ensures found ==> currentScene == Some(update(old(currentScene).value))
      ensures !found ==> currentScene == None
      ensures scenes == old(scenes)
    {
      found := currentScene.Some?;
      if found {
        currentScene := Some(update(currentScene.value));
      }
    }

    /**
      `load(name)`: an unknown name fails and leaves everything as it was;
      a known one replaces the current scene with the generator's output,
      whatever was current before.
     */
    method Load(name: string, app: App) returns (r: Result<Unit, string>, app': App)
      modifies this
      ensures scenes == old(scenes)
      ensures r.Err? <==> name !in scenes
      ensures r.Err? ==> r.error == "Scene not found." && currentScene == old(currentScene) && app' == app
      ensures r.Ok? ==> currentScene == Some(Generate(scenes[name], app).0) && app' == Generate(scenes[name], app).1
    {
      if name !in scenes {
        return Err("Scene not found."), app;
      }
      var (scene, app1) := Generate(scenes[name], app);
      currentScene := Some(scene);
      r, app' := Ok(Unit), app1;
    }

    /** `add(name, generator)`: registers or overwrites; the current scene is untouched. */
    method Add(name: string, generator: SceneGenerator<Cam, App>)
      modifies this
      ensures scenes == old(scenes)[name := generator]
      ensures currentScene == old(currentScene)
    {
      scenes := scenes[name := generator];
    }
  }

  /**
    Loading "A" and then "B": the current scene is what B's generator made
    from the application A's generator returned; nothing of A's scene is
    carried over.
   */
  method LoadTwiceReplaces<Cam, App>(a: SceneGenerator<Cam, App>, b: SceneGenerator<Cam, App>, app: App)
    returns (current: Option<Scene<Cam>>)
    ensures current == Some(Generate(b, Generate(a, app).1).0)
  {
    var manager := new ScenesManager<Cam, App>();
    manager.Add("A", a);
    manager.Add("B", b);
    var r1, app1 := manager.Load("A", app);
    var r2, app2 := manager.Load("B", app1);
    current := manager.Current();
  }

  /** A failed load keeps whichever scene was current, or none. */
  method FailedLoadKeepsCurrent<Cam, App>(menu: SceneGenerator<Cam, App>, app: App)
    returns (r: Result<Unit, string>, before: Option<Scene<Cam>>, after: Option<Scene<Cam>>)
    ensures r.Err? && after == before
    ensures before == Some(Generate(menu, app).0)
  {
    var manager := new ScenesManager<Cam, App>();
    manager.Add("menu", menu);
    var r0, app1 := manager.Load("menu", app);
    before := manager.Current();
    var app2;
    r, app2 := manager.Load("missing", app1);
    after := manager.Current();
  }
}
