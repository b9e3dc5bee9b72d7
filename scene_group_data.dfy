/**
 * SceneGroupData: a struct holding a group name and a reference to a
 * List<string> of scene names. Being a struct, it is copied on every read of
 * a property that holds it, while the list it points to is shared by all the
 * copies.
 */
module SceneGroups {
  import opened Wrappers
  import opened SceneLists

  datatype SceneGroupData = SceneGroupData(name: Option<string>, scenes: SceneList?)

  /** default(SceneGroupData): a null name and a null list. */
  const Default: SceneGroupData := SceneGroupData(None, null)

  /** The scenes a group lists; a null list lists none. */
  function Members(g: SceneGroupData): seq<string>
    reads g.scenes
  {
    if g.scenes == null then [] else g.scenes.items
  }

  /**
   * AddScene: create the list when it is null, then append the name. The
   * result is the struct after the call; the caller keeps it only when it
   * called the method on a variable of its own.
   */
  method AddScene(g: SceneGroupData, sceneName: string) returns (g': SceneGroupData)
    modifies g.scenes
    ensures g'.name == g.name
    ensures g'.scenes != null && g'.scenes.items == old(Members(g)) + [sceneName]
    ensures g.scenes != null ==> g'.scenes == g.scenes
    ensures g.scenes == null ==> fresh(g'.scenes)
    ensures ContainsScene(g', sceneName)
  {
    var scenes := g.scenes;
    if scenes == null {
      scenes := new SceneList([]);
    }
    scenes.Add(sceneName);
    g' := g.(scenes := scenes);
  }

  /**
   * AddAllScenes: create the list when it is null, then append every name of
   * sceneNames in order. List.AddRange throws on a null argument, so the
   * argument must be a list.
   */
  method AddAllScenes(g: SceneGroupData, sceneNames: SceneList) returns (g': SceneGroupData)
    modifies g.scenes
    ensures g'.name == g.name
    ensures g'.scenes != null && g'.scenes.items == old(Members(g)) + old(sceneNames.items)
    ensures g.scenes != null ==> g'.scenes == g.scenes
    ensures g.scenes == null ==> fresh(g'.scenes)
  {
    var scenes := g.scenes;
    if scenes == null {
      scenes := new SceneList([]);
    }
    scenes.AddRange(sceneNames);
    g' := g.(scenes := scenes);
  }

  /**
   * RemoveScene: remove the first occurrence of the name from the list, when
   * there is a list. The struct itself is not changed.
   */
  method RemoveScene(g: SceneGroupData, sceneName: string)
    modifies g.scenes
    ensures Members(g) == RemoveFirst(old(Members(g)), sceneName)
    ensures |Members(g)| == old(|Members(g)|) - 1 <==> sceneName in old(Members(g))
  {
    if g.scenes != null {
      var _ := g.scenes.Remove(sceneName);
      RemoveFirstRemovesOne(old(g.scenes.items), sceneName);
    }
  }

  /** ContainsScene: false for a null list, else list membership. */
  function ContainsScene(g: SceneGroupData, sceneName: string): (r: bool)
    reads g.scenes
    ensures r <==> sceneName in Members(g)
    ensures g.scenes == null ==> !r
  {
    g.scenes != null && sceneName in g.scenes.items
  }
}
