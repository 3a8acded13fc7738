/**
 * From parsed records to the animated camera and the point cloud
 * (src/COLMAP_Tracking_Importer_C4D_v1_3.py:208-235, 260, 535-565): one
 * keyframe per sorted image whose camera is known, timed by the image's
 * position in the sorted list; then the keys the camera receives, with the
 * rotation angles unwrapped from frame to frame.
 */
module Trajectory {
  import opened Wrappers
  import opened Geometry
  import opened Transform
  import opened Unwrap
  import opened Parsers
  import opened Intrinsics
  import opened Folders

  /** The dialog's settings: sensor width, timeline frame rate, scene scale. */
  datatype Settings = Settings(sensorMm: real, fps: int, scale: real)

  /** The host's `BaseTime(frame, fps)`, frame / fps seconds, kept as the pair. */
  datatype Time = BaseTime(frame: int, fps: int)

  /** A keyframe: time, global camera matrix, focal length in mm. */
  datatype Keyframe = Keyframe(time: Time, mg: Matrix, focalMm: real)

  /**
   * Focal lengths read parameter 0, so every camera an image refers to must
   * have a parameter.
   */
  predicate CamerasUsable(imgs: seq<Image>, cams: map<int, CameraDef>)
  {
    forall i :: 0 <= i < |imgs| && imgs[i].cameraId in cams ==> |cams[imgs[i].cameraId].params| > 0
  }

  /** The keyframe of image `im` at position `i`: its translation is scaled, then the pose converted. */
  function KeyOf(i: int, im: Image, cams: map<int, CameraDef>, st: Settings): Keyframe
    requires im.cameraId in cams && |cams[im.cameraId].params| > 0
  {
    Keyframe(BaseTime(i, st.fps), ColmapToC4dMatrix(im.q, Scale(im.t, st.scale)),
             BuildCamParams(cams[im.cameraId], st.sensorMm))
  }

  /** The keyframes of the images in order, skipping images whose camera is unknown. */
  function Keyframes(imgs: seq<Image>, cams: map<int, CameraDef>, st: Settings): seq<Keyframe>
    requires CamerasUsable(imgs, cams)
    decreases |imgs|
  {
    if imgs == [] then []
    else
      var n := |imgs| - 1;
      var keys := Keyframes(imgs[..n], cams, st);
      if imgs[n].cameraId in cams then keys + [KeyOf(n, imgs[n], cams, st)] else keys
  }

  /** The keyframe loop of the import. */
  method BuildKeyframes(imgs: seq<Image>, cams: map<int, CameraDef>, st: Settings) returns (keys: seq<Keyframe>)
    requires CamerasUsable(imgs, cams)
    ensures keys == Keyframes(imgs, cams, st)
  {
    keys := [];
    for i := 0 to |imgs|
      invariant keys == Keyframes(imgs[..i], cams, st)
    {
      assert imgs[..i + 1][..i] == imgs[..i];
      var im := imgs[i];
      if im.cameraId !in cams {
        continue;
      }
      var cdef := cams[im.cameraId];
      var fl := BuildCamParams(cdef, st.sensorMm);
      var m := ColmapToC4dMatrix(im.q, Scale(im.t, st.scale));
      keys := keys + [Keyframe(BaseTime(i, st.fps), m, fl)];
    }
    assert imgs[..|imgs|] == imgs;
  }

  /**
   * Every keyframe is the keyframe of the image at its frame number, an image
   * with a known camera; frame numbers strictly increase; there are no more
   * keyframes than images.
   */
  lemma {:induction false} KeyframesFromImages(imgs: seq<Image>, cams: map<int, CameraDef>, st: Settings)
    requires CamerasUsable(imgs, cams)
    ensures var keys := Keyframes(imgs, cams, st);
            && |keys| <= |imgs|
            && (forall j :: 0 <= j < |keys| ==>
                  && 0 <= keys[j].time.frame < |imgs|
                  && imgs[keys[j].time.frame].cameraId in cams
                  && keys[j] == KeyOf(keys[j].time.frame, imgs[keys[j].time.frame], cams, st))
            && (forall a, b :: 0 <= a < b < |keys| ==> keys[a].time.frame < keys[b].time.frame)
    decreases |imgs|
  {
    if imgs != [] {
      var n := |imgs| - 1;
      var init := imgs[..n];
      KeyframesFromImages(init, cams, st);
      var keys := Keyframes(init, cams, st);
      forall j | 0 <= j < |keys|
        ensures imgs[keys[j].time.frame] == init[keys[j].time.frame]
      {
      }
    }
  }

  /** Every image with a known camera gets the keyframe at its own position. */
  lemma {:induction false} KeyframesComplete(imgs: seq<Image>, cams: map<int, CameraDef>, st: Settings, i: int)
    requires CamerasUsable(imgs, cams)
    requires 0 <= i < |imgs| && imgs[i].cameraId in cams
    ensures exists j :: 0 <= j < |Keyframes(imgs, cams, st)| && Keyframes(imgs, cams, st)[j].time.frame == i
    decreases |imgs|
  {
    var n := |imgs| - 1;
    var keys := Keyframes(imgs, cams, st);
    if i == n {
      assert keys[|keys| - 1].time.frame == i;
    } else {
      var init := imgs[..n];
      assert init[i] == imgs[i];
      KeyframesComplete(init, cams, st, i);
      var j :| 0 <= j < |Keyframes(init, cams, st)| && Keyframes(init, cams, st)[j].time.frame == i;
      assert keys[j] == Keyframes(init, cams, st)[j];
    }
  }

  /** The last frame of the timeline and of the preview range: the image count, at least 1. */
  function TimelineEnd(imgs: seq<Image>): int
  {
    if |imgs| < 1 then 1 else |imgs|
  }

  /** Every keyframe lies within the timeline, which starts at frame 0. */
  lemma KeyframesWithinTimeline(imgs: seq<Image>, cams: map<int, CameraDef>, st: Settings)
    requires CamerasUsable(imgs, cams)
    ensures forall j :: 0 <= j < |Keyframes(imgs, cams, st)| ==>
              0 <= Keyframes(imgs, cams, st)[j].time.frame < TimelineEnd(imgs)
  {
    KeyframesFromImages(imgs, cams, st);
  }

  /**
   * Times are not compacted: when the first image's camera is unknown and the
   * second's is known, the only keyframe is at frame 1, not 0.
   */
  lemma KeyframesKeepGaps(a: Image, b: Image, cams: map<int, CameraDef>, st: Settings)
    requires a.cameraId !in cams && b.cameraId in cams && |cams[b.cameraId].params| > 0
    ensures |Keyframes([a, b], cams, st)| == 1 && Keyframes([a, b], cams, st)[0].time.frame == 1
  {
    assert [a, b][..1] == [a];
    assert [a][..0] == [];
    assert Keyframes([a], cams, st) == [];
    assert Keyframes([a, b], cams, st) == [KeyOf(1, b, cams, st)];
  }

  /**
   * The scale only moves the camera: the basis is unchanged and the position
   * is the unscaled position times the scale.
   */
  lemma ScaleMovesPositionOnly(q: Rotation.Quat, t: Vec3, s: real)
    ensures var m := ColmapToC4dMatrix(q, t);
            ColmapToC4dMatrix(q, Scale(t, s)) == Matrix(m.v1, m.v2, m.v3, Scale(m.off, s))
  {
    var rt := Transpose(Rotation.QuatToMatrix(q));
    ColmapToC4dColumns(q, t);
    ColmapToC4dColumns(q, Scale(t, s));
    MulVScale(rt, t, s);
  }

  /** Every keyframe's basis is a proper rotation. */
  lemma KeyframesAreRotations(imgs: seq<Image>, cams: map<int, CameraDef>, st: Settings)
    requires CamerasUsable(imgs, cams)
    ensures forall j :: 0 <= j < |Keyframes(imgs, cams, st)| ==> IsRotation(Keyframes(imgs, cams, st)[j].mg)
  {
    var keys := Keyframes(imgs, cams, st);
    KeyframesFromImages(imgs, cams, st);
    forall j | 0 <= j < |keys|
      ensures IsRotation(keys[j].mg)
    {
      var im := imgs[keys[j].time.frame];
      ColmapToC4dIsRotation(im.q, Scale(im.t, st.scale));
    }
  }

  // ------------------------------------------------------------ point cloud

  /** A cloud vertex: the point scaled, then with its world Y flipped. */
  function Vertex(p: Vec3, scale: real): Vec3
  {
    ApplyBToVec(Vec3(p.x * scale, p.y * scale, p.z * scale), BWorld)
  }

  /** The cloud's vertices, one per point, in order. */
  function PointCloud(pts: seq<Vec3>, scale: real): (r: seq<Vec3>)
    ensures |r| == |pts|
  {
    seq(|pts|, k requires 0 <= k < |pts| => Vertex(pts[k], scale))
  }

  /** A vertex is its point scaled, with y negated; for a non-zero scale the point is recovered. */
  lemma PointCloudVertices(pts: seq<Vec3>, scale: real, k: int)
    requires 0 <= k < |pts|
    ensures var p := pts[k];
            PointCloud(pts, scale)[k] == Vec3(p.x * scale, -(p.y * scale), p.z * scale)
    ensures scale != 0.0 ==> Scale(FlipY(PointCloud(pts, scale)[k]), 1.0 / scale) == pts[k]
  {
    var p := pts[k];
    var w := Vec3(p.x * scale, p.y * scale, p.z * scale);
    BWorldFlipsY(w);
    assert PointCloud(pts, scale)[k] == Vertex(p, scale);
    if scale != 0.0 {
      assert FlipY(FlipY(w)) == w;
      CancelScale(p.x * scale, p.x, scale, 1.0 / scale);
      CancelScale(p.y * scale, p.y, scale, 1.0 / scale);
      CancelScale(p.z * scale, p.z, scale, 1.0 / scale);
      assert p.x * scale * (1.0 / scale) == p.x;
      assert p.y * scale * (1.0 / scale) == p.y;
      assert p.z * scale * (1.0 / scale) == p.z;
    }
  }

  // ------------------------------------------------------------ camera keys

  /** The keys set on the camera at one time: position, unwrapped angles, focal length. */
  datatype BakedKey = BakedKey(time: Time, pos: Vec3, hpb: Vec3, focalMm: real)

  /** The raw angles of each keyframe's matrix, by the host's Euler extraction `hpbOf`. */
  function RawHpb(keys: seq<Keyframe>, hpbOf: Matrix -> Vec3): (r: seq<Vec3>)
    ensures |r| == |keys|
  {
    seq(|keys|, k requires 0 <= k < |keys| => hpbOf(keys[k].mg))
  }

  /** The keys of the camera: the angles of the whole track unwrapped from no previous angles. */
  function Baked(keys: seq<Keyframe>, hpbOf: Matrix -> Vec3): (r: seq<BakedKey>)
    ensures |r| == |keys|
  {
    var track := UnwrapTrack(None, RawHpb(keys, hpbOf));
    seq(|keys|, k requires 0 <= k < |keys| => BakedKey(keys[k].time, keys[k].mg.off, track[k], keys[k].focalMm))
  }

  /**
   * `bake_keys_to_camera`: the loop that carries the previous unwrapped
   * angles.  Every key keeps its time, position and focal length; its angles
   * equal the raw angles up to whole turns, are the raw angles at the first
   * key, and lie within half a turn of the previous key's.
   */
  method BakeKeys(keys: seq<Keyframe>, hpbOf: Matrix -> Vec3) returns (baked: seq<BakedKey>)
    ensures baked == Baked(keys, hpbOf)
    ensures |keys| > 0 ==> baked[0].hpb == hpbOf(keys[0].mg)
    ensures forall i :: 0 < i < |baked| ==> NearTriple(baked[i - 1].hpb, baked[i].hpb)
    ensures forall i :: 0 <= i < |baked| ==> SameTriple(baked[i].hpb, hpbOf(keys[i].mg))
  {
    ghost var raw := RawHpb(keys, hpbOf);
    ghost var track := UnwrapTrack(None, raw);
    var prev: Option<Vec3> := None;
    baked := [];
    for i := 0 to |keys|
      invariant |baked| == i
      invariant forall j :: 0 <= j < i ==> baked[j] == BakedKey(keys[j].time, keys[j].mg.off, track[j], keys[j].focalMm)
      invariant prev == if i == 0 then None else Some(track[i - 1])
    {
      var key := keys[i];
      var hpbRaw := hpbOf(key.mg);
      var step := UnwrapHpb(prev, hpbRaw);
      UnwrapHpbProperties(prev, hpbRaw);
      if i == 0 {
        UnwrapTrackProperties(raw);
      } else {
        UnwrapTrackStep(None, raw, i);
      }
      prev := step.1;
      baked := baked + [BakedKey(key.time, key.mg.off, step.0, key.focalMm)];
    }
    UnwrapTrackProperties(raw);
  }

  // ------------------------------------------------------------ the import

  /** What the import creates: the camera's keys and the cloud's vertices. */
  datatype Scene = Scene(keys: seq<BakedKey>, cloud: seq<Vec3>)

  /** The folder the import reads, when it gets that far. */
  function ModelFolder(fs: FileSystem, scene: Path): Option<Path>
  {
    if scene == [] || !fs.isDir(scene) then None else FindSparseTxtFolder(fs, scene)
  }

  /** The source's demands on the files of the chosen folder. */
  predicate ReadableModel(fs: FileSystem, read: Path -> seq<string>, scene: Path, conv: Conv)
  {
    ModelFolder(fs, scene).Some? ==>
      var dir := ModelFolder(fs, scene).value;
      && CameraLinesWellFormed(read(dir + ["cameras.txt"]))
      && CamerasUsable(ImagesOf(read(dir + ["images.txt"]), conv), CamerasOf(read(dir + ["cameras.txt"]), conv))
  }

  /**
   * The part of `do_import` after the folder is chosen: it fails when the
   * camera or image list is empty; otherwise the camera gets the keys of the
   * keyframes of the sorted images, and the cloud holds the scaled, flipped
   * points when points are asked for.
   */
  method ImportModel(cameraLines: seq<string>, imageLines: seq<string>, pointLines: seq<string>, conv: Conv,
                     st: Settings, doPoints: bool, hpbOf: Matrix -> Vec3) returns (r: Result<Scene>)
    requires CameraLinesWellFormed(cameraLines)
    requires CamerasUsable(ImagesOf(imageLines, conv), CamerasOf(cameraLines, conv))
    ensures var cams := CamerasOf(cameraLines, conv);
            var imgs := ImagesOf(imageLines, conv);
            && (r.Failure? <==> cams == map[] || imgs == [])
            && (r.Success? ==>
                  && r.value.keys == Baked(Keyframes(imgs, cams, st), hpbOf)
                  && r.value.cloud == (if doPoints then PointCloud(PointsOf(pointLines, conv), st.scale) else []))
  {
    var cams := ParseCameras(cameraLines, conv);
    var imgs := ParseImages(imageLines, conv);
    var pts: seq<Vec3> := [];
    if doPoints {
      pts := ParsePoints(pointLines, conv);
    }
    if cams == map[] || imgs == [] {
      return Failure("Could not read cameras.txt / images.txt in the sparse model.");
    }
    var cloud := PointCloud(pts, st.scale);
    var keys := BuildKeyframes(imgs, cams, st);
    var baked := BakeKeys(keys, hpbOf);
    return Success(Scene(baked, cloud));
  }

  /**
   * `do_import`: it fails when the scene folder is missing or when no folder
   * holds the model, and otherwise imports the model of the chosen folder.
   * `read` gives a file's lines.
   */
  method DoImport(fs: FileSystem, read: Path -> seq<string>, scene: Path, conv: Conv, st: Settings,
                  doPoints: bool, hpbOf: Matrix -> Vec3) returns (r: Result<Scene>)
    requires ReadableModel(fs, read, scene, conv)
    ensures ModelFolder(fs, scene).None? ==> r.Failure?
    ensures ModelFolder(fs, scene).Some? ==>
              var dir := ModelFolder(fs, scene).value;
              var cams := CamerasOf(read(dir + ["cameras.txt"]), conv);
              var imgs := ImagesOf(read(dir + ["images.txt"]), conv);
              && (r.Failure? <==> cams == map[] || imgs == [])
              && (r.Success? ==>
                    && r.value.keys == Baked(Keyframes(imgs, cams, st), hpbOf)
                    && r.value.cloud == (if doPoints then PointCloud(PointsOf(read(dir + ["points3D.txt"]), conv), st.scale) else []))
  {
    if scene == [] || !fs.isDir(scene) {
      return Failure("Please select a valid SCENE folder (must contain 'sparse').");
    }
    var sparse := FindSparseTxtFolder(fs, scene);
    if sparse.None? {
      return Failure("Could not find a COLMAP TXT model under 'sparse'.");
    }
    var dir := sparse.value;
    r := ImportModel(read(dir + ["cameras.txt"]), read(dir + ["images.txt"]), read(dir + ["points3D.txt"]),
                     conv, st, doPoints, hpbOf);
  }
}
