/**
 * src/main.c: the scene the program draws and the dirty-flag bookkeeping of
 * its render callback.
 *
 * The animation step (Animate) is not part of this model: its texture id is
 * the callback's input. The matrices of the uniform buffer and the buffer
 * uploads themselves are foreign; an upload is recorded as an `Upload`.
 */
module Game {
  import opened Base
  import opened Vulkan

  const MAX_INSTANCES: nat := 255
  /** CANVAS_WH, used as PIXELS_PER_UNIT. */
  const PIXELS_PER_UNIT: nat := 800

  datatype Vec2 = Vec2(x: real, y: real)
  datatype Vec3 = Vec3(x: real, y: real, z: real)

  const Origin: Vec3 := Vec3(0.0, 0.0, 0.0)

  /** Instance_t: one drawn sprite. */
  datatype Instance = Instance(pos: Vec3, rot: Vec3, scale: Vec3, texId: u32)

  const ZeroInstance: Instance := Instance(Origin, Origin, Origin, 0)

  /** The unit quad and its two triangles. */
  const Vertices: seq<Vec2> := [Vec2(-0.5, -0.5), Vec2(0.5, -0.5), Vec2(0.5, 0.5), Vec2(-0.5, 0.5)]
  const Indices: seq<u16> := [0, 1, 2, 2, 3, 0]

  /** The index list names only vertices of the quad and describes whole triangles. */
  lemma IndicesDescribeQuad()
    ensures |Indices| == 6 && |Indices| % 3 == 0
    ensures forall i :: 0 <= i < |Indices| ==> Indices[i] as nat < |Vertices|
    ensures forall v :: 0 <= v < |Vertices| ==> v in Indices
  {
    assert Indices[0] == 0 && Indices[1] == 1 && Indices[2] == 2 && Indices[4] == 3;
  }

  /** PixelsToUnits: a pixel length as a fraction of the 800-pixel canvas. */
  function PixelsToUnits(pixels: u32): (r: real)
    ensures r * PIXELS_PER_UNIT as real == pixels as real
    ensures 0.0 <= r
  {
    pixels as real / PIXELS_PER_UNIT as real
  }

  datatype Upload = InstanceUpload | UniformUpload(frame: nat)

  /**
   * What the render callback reads and writes: the texture id of instance 1,
   * isVBODirty and isUBODirty.
   */
  datatype RenderFlags = RenderFlags(texId: u32, vboDirty: bool, uboDirty: seq<bool>)

  /** One renderCallback, with `newTexId` the animation's texture id and `frame` m_currentFrame. */
  function RenderStep(s: RenderFlags, frame: nat, newTexId: u8): (r: (RenderFlags, seq<Upload>))
    requires frame < |s.uboDirty|
    ensures r.0.texId == newTexId && !r.0.vboDirty
    ensures |r.0.uboDirty| == |s.uboDirty| && !r.0.uboDirty[frame]
    ensures forall g :: 0 <= g < |s.uboDirty| && g != frame ==> r.0.uboDirty[g] == s.uboDirty[g]
    ensures InstanceUpload in r.1 <==> s.vboDirty || s.texId != newTexId
    ensures forall g :: UniformUpload(g) in r.1 <==> g == frame && s.uboDirty[frame]
    ensures |r.1| <= 2 && (|r.1| == 2 ==> r.1[0] == InstanceUpload)
  {
    var vbo := s.vboDirty || s.texId != newTexId;
    var instances := if vbo then [InstanceUpload] else [];
    var uniforms := if s.uboDirty[frame] then [UniformUpload(frame)] else [];
    (RenderFlags(newTexId, false, s.uboDirty[frame := false]), instances + uniforms)
  }

  /** A second call with the same texture id and frame uploads nothing. */
  lemma RepeatedCallUploadsNothing(s: RenderFlags, frame: nat, texId: u8)
    requires frame < |s.uboDirty|
    ensures RenderStep(RenderStep(s, frame, texId).0, frame, texId).1 == []
  {
  }

  datatype RenderCall = RenderCall(frame: nat, texId: u8)

  predicate FramesInRange(s: RenderFlags, calls: seq<RenderCall>) {
    forall i :: 0 <= i < |calls| ==> calls[i].frame < |s.uboDirty|
  }

  /** The flags and the uploads after a sequence of render callbacks. */
  function RenderSteps(s: RenderFlags, calls: seq<RenderCall>): (r: (RenderFlags, seq<Upload>))
    requires FramesInRange(s, calls)
    ensures |r.0.uboDirty| == |s.uboDirty|
    ensures calls == [] ==> r == (s, [])
    ensures calls != [] ==> !r.0.vboDirty && r.0.texId == calls[|calls| - 1].texId as u32
    ensures |r.1| <= 2 * |calls|
    decreases |calls|
  {
    if calls == [] then (s, [])
    else
      var (s1, u1) := RenderStep(s, calls[0].frame, calls[0].texId);
      var (s2, u2) := RenderSteps(s1, calls[1..]);
      (s2, u1 + u2)
  }

  /** Some callback of `calls` runs for frame f. */
  predicate ServesFrame(calls: seq<RenderCall>, f: nat) {
    exists i :: 0 <= i < |calls| && calls[i].frame == f
  }

  lemma ServesFrameUnfold(calls: seq<RenderCall>, f: nat)
    requires calls != []
    ensures ServesFrame(calls, f) <==> calls[0].frame == f || ServesFrame(calls[1..], f)
  {
    if ServesFrame(calls, f) && calls[0].frame != f {
      var i :| 0 <= i < |calls| && calls[i].frame == f;
      assert calls[1..][i - 1].frame == f;
    }
    if ServesFrame(calls[1..], f) {
      var i :| 0 <= i < |calls[1..]| && calls[1..][i].frame == f;
      assert calls[i + 1].frame == f;
    }
  }

  /** Frame f's flag stays set exactly while no callback has run for f. */
  lemma {:induction false} UniformFlagCleared(s: RenderFlags, calls: seq<RenderCall>, f: nat)
    requires FramesInRange(s, calls) && f < |s.uboDirty|
    ensures RenderSteps(s, calls).0.uboDirty[f] == (s.uboDirty[f] && !ServesFrame(calls, f))
    decreases |calls|
  {
    if calls != [] {
      var s1 := RenderStep(s, calls[0].frame, calls[0].texId).0;
      assert FramesInRange(s1, calls[1..]);
      UniformFlagCleared(s1, calls[1..], f);
      ServesFrameUnfold(calls, f);
    }
  }

  /**
   * Nothing sets an isUBODirty entry back to true: over any sequence of
   * callbacks, frame f's uniform buffer is uploaded exactly once if its flag
   * was set and some callback ran for f, and never otherwise.
   */
  lemma {:induction false} UniformUploadedAtMostOnce(s: RenderFlags, calls: seq<RenderCall>, f: nat)
    requires FramesInRange(s, calls) && f < |s.uboDirty|
    ensures multiset(RenderSteps(s, calls).1)[UniformUpload(f)]
            == if s.uboDirty[f] && ServesFrame(calls, f) then 1 else 0
    decreases |calls|
  {
    if calls != [] {
      var r1 := RenderStep(s, calls[0].frame, calls[0].texId);
      var rest := calls[1..];
      assert FramesInRange(r1.0, rest);
      UniformUploadedAtMostOnce(r1.0, rest, f);
      ServesFrameUnfold(calls, f);
      assert RenderSteps(s, calls).1 == r1.1 + RenderSteps(r1.0, rest).1;
      assert multiset(r1.1)[UniformUpload(f)] == if calls[0].frame == f && s.uboDirty[f] then 1 else 0 by {
        UploadsOfStep(s, calls[0].frame, calls[0].texId, f);
      }
    }
  }

  /** How many uniform uploads of frame f one callback makes. */
  lemma UploadsOfStep(s: RenderFlags, frame: nat, texId: u8, f: nat)
    requires frame < |s.uboDirty|
    ensures multiset(RenderStep(s, frame, texId).1)[UniformUpload(f)] == if frame == f && s.uboDirty[f] then 1 else 0
  {
    var u := RenderStep(s, frame, texId).1;
    var vbo := s.vboDirty || s.texId != texId;
    var instances := if vbo then [InstanceUpload] else [];
    var uniforms := if s.uboDirty[frame] then [UniformUpload(frame)] else [];
    assert u == instances + uniforms;
    assert multiset(u) == multiset(instances) + multiset(uniforms);
  }

  /** Once the instance buffer is clean, it is not uploaded again while the texture id stays the same. */
  lemma {:induction false} SteadyTextureUploadsNoInstances(s: RenderFlags, calls: seq<RenderCall>)
    requires FramesInRange(s, calls) && !s.vboDirty
    requires forall i :: 0 <= i < |calls| ==> calls[i].texId == s.texId
    ensures InstanceUpload !in RenderSteps(s, calls).1
    decreases |calls|
  {
    if calls != [] {
      var (s1, u1) := RenderStep(s, calls[0].frame, calls[0].texId);
      var rest := calls[1..];
      assert FramesInRange(s1, rest);
      assert forall i :: 0 <= i < |rest| ==> rest[i] == calls[i + 1];
      SteadyTextureUploadsNoInstances(s1, rest);
      assert RenderSteps(s, calls).1 == u1 + RenderSteps(s1, rest).1;
    }
  }

  /** The static state of main.c: the instances, the dirty flags and the world's aspect ratio. */
  class Scene {
    var isVBODirty: bool
    const isUBODirty: array<bool>
    const instances: array<Instance>
    var instanceCount: u16
    /** world.aspect: zero until the scene is set up. */
    var worldAspect: real
    const vulkan: Context

    ghost predicate Valid()
      reads this
    {
      isUBODirty.Length == 2 && instances.Length == MAX_INSTANCES
    }

    /** The dirty-flag state of this scene. */
    ghost function Flags(): RenderFlags
      reads this, instances, isUBODirty
      requires Valid()
    {
      RenderFlags(instances[1].texId, isVBODirty, isUBODirty[..])
    }

    /** The initial values of the statics: every flag dirty, one instance, all else zero. */
    constructor (vulkan: Context)
      ensures Valid() && fresh(instances) && fresh(isUBODirty)
      ensures isVBODirty && isUBODirty[..] == [true, true]
      ensures instanceCount == 1 && worldAspect == 0.0 && this.vulkan == vulkan
      ensures forall i :: 0 <= i < instances.Length ==> instances[i] == ZeroInstance
    {
      isVBODirty := true;
      isUBODirty := new bool[2] [true, true];
      instances := new Instance[MAX_INSTANCES] (_ => ZeroInstance);
      instanceCount := 1;
      worldAspect := 0.0;
      this.vulkan := vulkan;
    }

    /**
     * The scene setup in main: the index count handed to the driver, the
     * square world, the background in slot 0 and the player in slot 1.
     */
    method SetupScene()
      requires Valid()
      modifies instances, this`instanceCount, this`worldAspect, vulkan`drawIndexCount
      ensures vulkan.drawIndexCount == |Indices| == 6
      ensures worldAspect == ASPECT_SQUARE
      ensures instanceCount == 2 && instanceCount as nat <= MAX_INSTANCES
      ensures instances[0] == Instance(Origin, Origin, Vec3(PixelsToUnits(2632), PixelsToUnits(1721), 1.0), 0)
      ensures instances[1] == Instance(Origin, Origin, Vec3(PixelsToUnits(300), PixelsToUnits(450), 1.0), 4)
      ensures forall i :: 2 <= i < instances.Length ==> instances[i] == old(instances[i])
    {
      vulkan.drawIndexCount := |Indices|;
      worldAspect := ASPECT_SQUARE;
      instances[0] := Instance(Origin, Origin, Vec3(PixelsToUnits(2632), PixelsToUnits(1721), 1.0), 0);
      instanceCount := 1;
      instances[instanceCount] := Instance(Origin, Origin, Vec3(PixelsToUnits(300), PixelsToUnits(450), 1.0), 4);
      instanceCount := instanceCount + 1;
    }

    /**
     * renderCallback with `newTexId` the animation's texture id: the flags
     * move as RenderStep says, instance 1 alone takes the new texture id,
     * an instance upload first publishes the instance count, and a uniform
     * upload synchronises the driver's aspect ratio with the world's.
     */
    method RenderCallback(newTexId: u8) returns (uploads: seq<Upload>)
      requires Valid() && vulkan.currentFrame < 2 && worldAspect > 0.0
      modifies instances, isUBODirty, this`isVBODirty, vulkan`instanceCount, vulkan`view
      ensures Valid()
      ensures (Flags(), uploads) == RenderStep(old(Flags()), vulkan.currentFrame, newTexId)
      ensures instances[..] == old(instances[..])[1 := old(instances[1]).(texId := newTexId)]
      ensures vulkan.instanceCount == if InstanceUpload in uploads then instanceCount as nat else old(vulkan.instanceCount)
      ensures vulkan.view == if UniformUpload(vulkan.currentFrame) in uploads
                             then old(vulkan.view).(aspectRatio := worldAspect) else old(vulkan.view)
    {
      ghost var before := Flags();
      var frame := vulkan.currentFrame;
      uploads := [];
      if instances[1].texId != newTexId {
        instances[1] := instances[1].(texId := newTexId);
        isVBODirty := true;
      }
      if isVBODirty {
        isVBODirty := false;
        vulkan.instanceCount := instanceCount as nat;
        uploads := uploads + [InstanceUpload];
      }
      if isUBODirty[frame] {
        isUBODirty[frame] := false;
        vulkan.view := vulkan.view.(aspectRatio := worldAspect);
        uploads := uploads + [UniformUpload(frame)];
      }
      assert isUBODirty[..] == before.uboDirty[frame := false];
      assert Flags() == RenderStep(before, frame, newTexId).0;
      assert uploads == RenderStep(before, frame, newTexId).1;
    }
  }

  /** A freshly set-up scene: every flag dirty, instance 1 showing texture 4. */
  method SetUpScene(vulkan: Context) returns (scene: Scene)
    modifies vulkan`drawIndexCount
    ensures scene.Valid() && fresh(scene)
    ensures scene.Flags() == RenderFlags(4, true, [true, true])
  {
    scene := new Scene(vulkan);
    scene.SetupScene();
  }
}
