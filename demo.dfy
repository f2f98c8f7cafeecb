/**
  `BuddhaDemo`: the models it has loaded, the soft vertex cache
  configuration with the state derived from it, and the checks `renderScene`
  makes on the draw command it issues.
*/
module Demo {
  import opened Wrappers
  import opened WaveFront
  import opened Layout
  import opened SoftCache

  /** The checks `renderScene` asserts, in the order it makes them. */
  method CheckDrawCommand(cmd: DrawCommand) returns (passes: bool)
    ensures passes == RenderAsserts(cmd)
  {
    if cmd.primType == Patches {
      passes := cmd.patchVertices >= 1;
    } else {
      passes := cmd.patchVertices == 0;
    }
    if cmd.drawType == DrawCmdDrawArrays {
      passes := passes && cmd.drawArrays.count >= 1;
    } else if cmd.drawType == DrawCmdDrawElements {
    } else {
      passes := false;
    }
  }

  /** The soft vertex cache state derived from `config`: the shader
      preamble and the sizes of the buckets and bucket-locks buffers. */
  ghost predicate CacheState(config: SoftVertexCacheConfig, preamble: string, bucketsBytes: int, locksBytes: nat) {
    && SizesDefined(config)
    && preamble == Preamble(config)
    && bucketsBytes == BucketsBufferBytes(config)
    && locksBytes == BucketLocksBufferBytes(config)
  }

  /** A model built by the default constructor and loaded from `file`, as
      `addMesh` makes one. */
  method LoadedModel(file: Option<seq<ObjLine>>) returns (model: PerModel)
    requires file.Some? ==> Loadable(file.value)
    ensures fresh(model) && fresh(model.drawCmd)
    ensures model.Loaded(MeshTables(file))
  {
    model := new PerModel();
    ghost var defaults := model.drawCmd[..];
    model.Load(file);
    FreshTableEntries(defaults, model.drawCmd[..], |MeshTables(file).indices|, |MeshTables(file).positionIndices|);
  }

  class BuddhaDemo {
    var models: seq<PerModel>
    /** The mesh tables of the file each model was loaded from. */
    ghost var tables: seq<Tables>
    var softVertexCacheConfig: SoftVertexCacheConfig
    /** The preamble the soft-cache puller's vertex shader is compiled with. */
    var softcachePreamble: string
    var vertexCacheBucketsBufferBytes: int
    var vertexCacheBucketLocksBufferBytes: nat

    /** Every model holds the layouts and the draw table of the mesh it
        was loaded from. */
    ghost predicate ModelsHold()
      reads this, models, set i | 0 <= i < |models| :: models[i].drawCmd
    {
      && |tables| == |models|
      && forall i | 0 <= i < |models| :: models[i].Loaded(tables[i])
    }

    /** The cache state is the one `SetSoftVertexCacheConfig` derives from
        the stored configuration. */
    ghost predicate CacheHolds()
      reads this
    {
      CacheState(softVertexCacheConfig, softcachePreamble,
        vertexCacheBucketsBufferBytes, vertexCacheBucketLocksBufferBytes)
    }

    ghost predicate Valid()
      reads this, models, set i | 0 <= i < |models| :: models[i].drawCmd
    {
      ModelsHold() && CacheHolds()
    }

    /** No models, and the default cache configuration. */
    constructor ()
      ensures Valid()
      ensures models == [] && IsDefaultConfig(softVertexCacheConfig)
      ensures IsDefaultConfig(GetSoftVertexCacheConfig())
    {
      models := [];
      tables := [];
      new;
      SetDefaultSoftVertexCacheConfig();
    }

    function GetSoftVertexCacheConfig(): (c: SoftVertexCacheConfig)
      reads this
      ensures c == softVertexCacheConfig
    {
      softVertexCacheConfig
    }

    /** Stores the configuration, rebuilds the shader preamble and resizes
        the buckets and locks buffers. */
    method SetSoftVertexCacheConfig(config: SoftVertexCacheConfig)
      requires SizesDefined(config)
      modifies this`softVertexCacheConfig, this`softcachePreamble
      modifies this`vertexCacheBucketsBufferBytes, this`vertexCacheBucketLocksBufferBytes
      ensures softVertexCacheConfig == config
      ensures GetSoftVertexCacheConfig() == config
      ensures CacheHolds()
    {
      softVertexCacheConfig := config;
      var preamble := DefineText(config, SizingOrder, "");
      if config.enableCacheMissCounter {
        preamble := preamble + CacheMissCounterLine;
        DefineTextAppend(config, SizingOrder, CacheMissCounterLine);
      }
      assert preamble == Preamble(config);
      softcachePreamble := preamble;
      var bucketSizeInBytes := BucketSizeInBytes(config);
      var numBuckets := NumBuckets(config);
      vertexCacheBucketsBufferBytes := bucketSizeInBytes * numBuckets;
      vertexCacheBucketLocksBufferBytes := BucketLocksBufferBytes(config);
    }

    /** The configuration the constructor installs. */
    method SetDefaultSoftVertexCacheConfig()
      modifies this`softVertexCacheConfig, this`softcachePreamble
      modifies this`vertexCacheBucketsBufferBytes, this`vertexCacheBucketLocksBufferBytes
      ensures IsDefaultConfig(softVertexCacheConfig)
      ensures CacheHolds()
    {
      var cacheConfig := SoftVertexCacheConfig(20, 1024, 1024, 2, 1000000, false);
      DefaultSizes(cacheConfig);
      SetSoftVertexCacheConfig(cacheConfig);
    }

    /** Loads a mesh into a new model and returns its id. */
    method AddMesh(file: Option<seq<ObjLine>>) returns (id: int)
      requires file.Some? ==> Loadable(file.value)
      requires Valid()
      modifies this`models, this`tables
      ensures Valid()
      ensures |models| == |old(models)| + 1
      ensures models[..|old(models)|] == old(models) && tables == old(tables) + [MeshTables(file)]
      ensures fresh(models[|old(models)|])
      ensures id == ToInt32(|models|) - 1
      ensures |models| <= Int32Max ==> id == |old(models)| && models[id].Loaded(MeshTables(file))
    {
      ghost var loaded, loadedFrom := models, tables;
      var model := LoadedModel(file);
      models, tables := models + [model], tables + [MeshTables(file)];
      forall i | 0 <= i < |models|
        ensures models[i].Loaded(tables[i])
      {
        if i < |loaded| {
          assert models[i] == loaded[i] && tables[i] == loadedFrom[i];
        }
      }
      assert CacheHolds();
      assert ModelsHold();
      id := ToInt32(|models|) - 1;
      if |models| <= Int32Max {
        SmallToInt32(|models|);
      }
    }

    /** The draw command `renderScene` issues for a mesh in a mode, and
        whether it passes the asserts made before the draw. */
    method RenderChecks(meshID: int, mode: Mode) returns (cmd: DrawCommand, passes: bool)
      requires Valid() && 0 <= meshID < |models|
      ensures var t := tables[meshID]; cmd == DrawCommandFor(mode, |t.indices|, |t.positionIndices|)
      ensures passes == RenderAsserts(cmd)
      ensures var t := tables[meshID];
        passes <==> !(mode.Puller? || mode.PullerObj?) || CountFor(mode, |t.indices|, |t.positionIndices|) != 0
    {
      var model := models[meshID];
      cmd := model.drawCmd[ModeIndex(mode)];
      passes := CheckDrawCommand(cmd);
      RenderAssertsFor(mode, |tables[meshID].indices|, |tables[meshID].positionIndices|);
    }
  }
}
