/**
 * SceneConfig, the request passed to every loading coroutine, and the
 * builder that assembles one.
 */
module SceneConfigs {
  import opened Wrappers
  import opened Collaborators
  import opened SceneGroups

  class SceneConfig {
    var progress: Option<ProgressSink>
    var sceneGroup: SceneGroupData
    /** Carried along; nothing in the scene manager reads it. */
    var ignoreIfAlreadyLoaded: bool

    /** The private constructor the builder calls. */
    constructor (progress: Option<ProgressSink>, sceneGroup: SceneGroupData, ignoreIfAlreadyLoaded: bool)
      ensures this.progress == progress
      ensures this.sceneGroup == sceneGroup
      ensures this.ignoreIfAlreadyLoaded == ignoreIfAlreadyLoaded
    {
      this.progress := progress;
      this.sceneGroup := sceneGroup;
      this.ignoreIfAlreadyLoaded := ignoreIfAlreadyLoaded;
    }
  }

  class SceneConfigBuilder {
    var progress: Option<ProgressSink>
    var sceneGroup: SceneGroupData
    var ignoreIfAlreadyLoaded: bool

    /** A fresh builder holds the C# defaults: null, default(SceneGroupData), false. */
    constructor ()
      ensures progress == None && sceneGroup == Default && !ignoreIfAlreadyLoaded
    {
      progress := None;
      sceneGroup := Default;
      ignoreIfAlreadyLoaded := false;
    }

    method SetSceneGroup(sceneGroup: SceneGroupData) returns (self: SceneConfigBuilder)
      modifies this
      ensures self == this
      ensures this.sceneGroup == sceneGroup
      ensures progress == old(progress) && ignoreIfAlreadyLoaded == old(ignoreIfAlreadyLoaded)
    {
      this.sceneGroup := sceneGroup;
      self := this;
    }

    method SetProgress(progress: Option<ProgressSink>) returns (self: SceneConfigBuilder)
      modifies this
      ensures self == this
      ensures this.progress == progress
      ensures sceneGroup == old(sceneGroup) && ignoreIfAlreadyLoaded == old(ignoreIfAlreadyLoaded)
    {
      this.progress := progress;
      self := this;
    }

    method SetIgnoreIfAlreadyLoaded(ignoreIfAlreadyLoaded: bool) returns (self: SceneConfigBuilder)
      modifies this
      ensures self == this
      ensures this.ignoreIfAlreadyLoaded == ignoreIfAlreadyLoaded
      ensures progress == old(progress) && sceneGroup == old(sceneGroup)
    {
      this.ignoreIfAlreadyLoaded := ignoreIfAlreadyLoaded;
      self := this;
    }

    /**
     * A new config carrying the builder's current values. The builder is not
     * changed, and the config's group shares the builder's scene list.
     */
    method Build() returns (config: SceneConfig)
      ensures fresh(config)
      ensures config.progress == progress
      ensures config.sceneGroup == sceneGroup
      ensures config.ignoreIfAlreadyLoaded == ignoreIfAlreadyLoaded
    {
      config := new SceneConfig(progress, sceneGroup, ignoreIfAlreadyLoaded);
    }
  }

  /**
   * A builder used as a chain: whatever was set last is what Build returns,
   * a builder with nothing set builds the defaults, and building twice gives
   * two distinct configs with the same fields.
   */
  method BuilderClient(sink: ProgressSink, g: SceneGroupData, h: SceneGroupData)
  {
    var empty := new SceneConfigBuilder();
    var d := empty.Build();
    assert d.progress == None && d.sceneGroup == Default && !d.ignoreIfAlreadyLoaded;

    var b := new SceneConfigBuilder();
    var b1 := b.SetSceneGroup(g);
    var b2 := b1.SetProgress(Some(sink));
    var b3 := b2.SetIgnoreIfAlreadyLoaded(true);
    var b4 := b3.SetSceneGroup(h);
    assert b4 == b;
    var c1 := b4.Build();
    var c2 := b4.Build();
    assert c1 != c2;
    assert c1.progress == c2.progress == Some(sink);
    assert c1.sceneGroup == c2.sceneGroup == h;
    assert c1.ignoreIfAlreadyLoaded && c2.ignoreIfAlreadyLoaded;
  }
}
