/**
 * The three readers of the reconstruction's text model
 * (src/COLMAP_Tracking_Importer_C4D_v1_3.py:41-87).  A file is its list of
 * lines; a file that does not exist reads as no lines, which every parser
 * turns into an empty result, as the source does.  `int()` and `float()` on a
 * field are the total conversions of a `Conv`.
 */
module Parsers {
  import opened Geometry
  import opened Rotation
  import opened Text
  import opened Sorting

  /** The number conversions applied to fields. */
  datatype Conv = Conv(toInt: string -> int, toReal: string -> real)

  /** The whitespace-separated fields of a stripped line. */
  function Fields(line: string): seq<string>
  {
    Split(Strip(line))
  }

  /** `list(map(float, ts))`. */
  function Reals(conv: Conv, ts: seq<string>): (r: seq<real>)
    ensures |r| == |ts|
  {
    seq(|ts|, k requires 0 <= k < |ts| => conv.toReal(ts[k]))
  }

  // ------------------------------------------------------------ cameras.txt

  datatype CameraDef = CameraDef(model: string, width: real, height: real, params: seq<real>)

  /** A line that the camera reader does not skip. */
  predicate IsCameraLine(line: string)
  {
    !IsCommentOrBlank(line)
  }

  /**
   * The camera reader indexes fields 0 to 3 of every line it does not skip,
   * with no guard: a shorter line raises.  Its callers must supply lines with
   * at least four fields.
   */
  predicate CameraLinesWellFormed(lines: seq<string>)
  {
    forall k :: 0 <= k < |lines| && IsCameraLine(lines[k]) ==> |Fields(lines[k])| >= 4
  }

  function CameraId(conv: Conv, line: string): int
    requires |Fields(line)| >= 1
  {
    conv.toInt(Fields(line)[0])
  }

  /** The entry of a camera line: model, width, height and parameters 4.. in order. */
  function CameraOf(conv: Conv, line: string): CameraDef
    requires |Fields(line)| >= 4
  {
    var p := Fields(line);
    CameraDef(p[1], conv.toReal(p[2]), conv.toReal(p[3]), Reals(conv, p[4..]))
  }

  /** The cameras dictionary after reading `lines` in order: each line assigns its id. */
  function CamerasOf(lines: seq<string>, conv: Conv): map<int, CameraDef>
    requires CameraLinesWellFormed(lines)
    decreases |lines|
  {
    if lines == [] then map[]
    else
      var cams := CamerasOf(lines[..|lines| - 1], conv);
      var line := lines[|lines| - 1];
      if IsCameraLine(line) then cams[CameraId(conv, line) := CameraOf(conv, line)] else cams
  }

  /** `parse_cameras_txt`: the dictionary built line by line. */
  method ParseCameras(lines: seq<string>, conv: Conv) returns (cams: map<int, CameraDef>)
    requires CameraLinesWellFormed(lines)
    ensures cams == CamerasOf(lines, conv)
  {
    cams := map[];
    for i := 0 to |lines|
      invariant cams == CamerasOf(lines[..i], conv)
    {
      assert lines[..i + 1][..i] == lines[..i];
      var line := lines[i];
      if IsCommentOrBlank(line) {
        continue;
      }
      var p := Fields(line);
      cams := cams[conv.toInt(p[0]) := CameraDef(p[1], conv.toReal(p[2]), conv.toReal(p[3]), Reals(conv, p[4..]))];
    }
    assert lines[..|lines|] == lines;
  }

  /** The line is a camera line that assigns `id`. */
  predicate AssignsId(conv: Conv, line: string, id: int)
  {
    IsCameraLine(line) && |Fields(line)| >= 1 && CameraId(conv, line) == id
  }

  /** An id is a key of the dictionary exactly when some camera line assigns it. */
  lemma {:induction false} CamerasKeys(lines: seq<string>, conv: Conv, id: int)
    requires CameraLinesWellFormed(lines)
    ensures id in CamerasOf(lines, conv) <==> exists k :: 0 <= k < |lines| && AssignsId(conv, lines[k], id)
    decreases |lines|
  {
    if lines != [] {
      var last := |lines| - 1;
      var init := lines[..last];
      CamerasKeys(init, conv, id);
      if AssignsId(conv, lines[last], id) {
        assert id in CamerasOf(lines, conv);
      } else {
        assert id in CamerasOf(lines, conv) <==> id in CamerasOf(init, conv);
        if k :| 0 <= k < |lines| && AssignsId(conv, lines[k], id) {
          assert init[k] == lines[k];
        }
        if k :| 0 <= k < |init| && AssignsId(conv, init[k], id) {
          assert init[k] == lines[k];
        }
      }
    }
  }

  /**
   * A later line with the same id overwrites an earlier one: the last camera
   * line of an id decides its entry, which holds field 1 as the model, fields
   * 2 and 3 as width and height, and fields 4.. in order as the parameters.
   */
  lemma {:induction false} CamerasLastWins(lines: seq<string>, conv: Conv, k: int)
    requires CameraLinesWellFormed(lines)
    requires 0 <= k < |lines| && IsCameraLine(lines[k])
    requires forall j :: k < j < |lines| && IsCameraLine(lines[j]) ==> CameraId(conv, lines[j]) != CameraId(conv, lines[k])
    ensures CameraId(conv, lines[k]) in CamerasOf(lines, conv)
    ensures CamerasOf(lines, conv)[CameraId(conv, lines[k])] == CameraOf(conv, lines[k])
    ensures var e, f := CamerasOf(lines, conv)[CameraId(conv, lines[k])], Fields(lines[k]);
            && e.model == f[1] && e.width == conv.toReal(f[2]) && e.height == conv.toReal(f[3])
            && |e.params| == |f| - 4
            && forall i :: 4 <= i < |f| ==> e.params[i - 4] == conv.toReal(f[i])
    decreases |lines|
  {
    var last := |lines| - 1;
    if k < last {
      var init := lines[..last];
      assert init[k] == lines[k];
      forall j | k < j < |init| && IsCameraLine(init[j])
        ensures CameraId(conv, init[j]) != CameraId(conv, init[k])
      {
        assert init[j] == lines[j];
      }
      CamerasLastWins(init, conv, k);
    }
  }

  // ------------------------------------------------------------- images.txt

  /** An image record: its pose (rotation q, translation t), camera and file name. */
  datatype Image = Image(imageId: int, q: Quat, t: Vec3, cameraId: int, name: string)

  /** A line that starts an image record: not blank, not a comment, ten fields or more. */
  predicate IsPoseLine(line: string)
  {
    !IsCommentOrBlank(line) && |Fields(line)| >= 10
  }

  /** The record of a pose line; the name is fields 9.. joined by single spaces. */
  function ImageOf(conv: Conv, line: string): Image
    requires IsPoseLine(line)
  {
    var p := Fields(line);
    Image(conv.toInt(p[0]),
          Quat(conv.toReal(p[1]), conv.toReal(p[2]), conv.toReal(p[3]), conv.toReal(p[4])),
          Vec3(conv.toReal(p[5]), conv.toReal(p[6]), conv.toReal(p[7])),
          conv.toInt(p[8]),
          Join(p[9..]))
  }

  /**
   * The records in file order: a pose line yields a record and takes the line
   * after it (the 2D observations) with it, unread; every other line is skipped.
   */
  function PoseRecords(lines: seq<string>, conv: Conv): seq<Image>
    decreases |lines|
  {
    if lines == [] then []
    else if !IsPoseLine(lines[0]) then PoseRecords(lines[1..], conv)
    else [ImageOf(conv, lines[0])] + PoseRecords(if |lines| >= 2 then lines[2..] else [], conv)
  }

  /** The sort key of the image list. */
  predicate ById(a: Image, b: Image)
  {
    a.imageId <= b.imageId
  }

  /** `parse_images_txt`'s result: the records stably sorted by id. */
  function ImagesOf(lines: seq<string>, conv: Conv): seq<Image>
  {
    Sort(PoseRecords(lines, conv), ById)
  }

  /** `parse_images_txt`: the readline loop, then the in-place sort. */
  method ParseImages(lines: seq<string>, conv: Conv) returns (imgs: seq<Image>)
    ensures imgs == ImagesOf(lines, conv)
  {
    imgs := [];
    var i := 0;
    while i < |lines|
      invariant 0 <= i <= |lines|
      invariant imgs + PoseRecords(lines[i..], conv) == PoseRecords(lines, conv)
    {
      var line := lines[i];
      assert lines[i..][0] == line && lines[i..][1..] == lines[i + 1..];
      i := i + 1;
      if IsCommentOrBlank(line) {
        continue;
      }
      var p := Fields(line);
      if |p| < 10 {
        continue;
      }
      var im := Image(conv.toInt(p[0]),
                      Quat(conv.toReal(p[1]), conv.toReal(p[2]), conv.toReal(p[3]), conv.toReal(p[4])),
                      Vec3(conv.toReal(p[5]), conv.toReal(p[6]), conv.toReal(p[7])),
                      conv.toInt(p[8]),
                      Join(p[9..]));
      assert im == ImageOf(conv, line);
      imgs := imgs + [im];
      if i < |lines| {
        assert lines[i - 1..][2..] == lines[i + 1..];
        i := i + 1;  // the 2D observations line, read and dropped
      }
    }
    assert lines[i..] == [];
    assert imgs == PoseRecords(lines, conv);
    imgs := Sort(imgs, ById);
  }

  lemma ByIdTotalPreorder()
    ensures TotalPreorder(ById)
  {
  }

  /** The image list is sorted ascending by id. */
  lemma ImagesSorted(lines: seq<string>, conv: Conv)
    ensures Sorted(ImagesOf(lines, conv), ById)
  {
    ByIdTotalPreorder();
    SortSorted(PoseRecords(lines, conv), ById);
  }

  /** The image list holds exactly the records read, each as often as it was read. */
  lemma ImagesPermutation(lines: seq<string>, conv: Conv)
    ensures multiset(ImagesOf(lines, conv)) == multiset(PoseRecords(lines, conv))
  {
    SortPermutation(PoseRecords(lines, conv), ById);
  }

  /** Records with equal ids keep their file order. */
  lemma ImagesStable(lines: seq<string>, conv: Conv, z: Image)
    ensures Filter(ImagesOf(lines, conv), TiesWith(z, ById)) == Filter(PoseRecords(lines, conv), TiesWith(z, ById))
  {
    ByIdTotalPreorder();
    SortStable(PoseRecords(lines, conv), ById, z);
  }

  /** Two records tie under the sort key exactly when their ids are equal. */
  lemma TiesWithById(z: Image, y: Image)
    ensures TiesWith(z, ById)(y) <==> y.imageId == z.imageId
  {
    assert TiesWith(z, ById)(y) == (ById(z, y) && ById(y, z));
  }

  /** The line after a pose line is dropped whatever it holds, even another pose line. */
  lemma PairedLineIgnored(conv: Conv, pose: string, next: string, rest: seq<string>)
    requires IsPoseLine(pose)
    ensures PoseRecords([pose, next] + rest, conv) == [ImageOf(conv, pose)] + PoseRecords(rest, conv)
  {
    assert ([pose, next] + rest)[2..] == rest;
  }

  /** A blank line, a comment line or a line of fewer than ten fields adds no record. */
  lemma ShortLineSkipped(conv: Conv, line: string, rest: seq<string>)
    requires IsCommentOrBlank(line) || |Fields(line)| < 10
    ensures PoseRecords([line] + rest, conv) == PoseRecords(rest, conv)
  {
    assert ([line] + rest)[1..] == rest;
  }

  /** The words of a record's name are exactly fields 9.. of its line. */
  lemma ImageNameWords(conv: Conv, line: string)
    requires IsPoseLine(line)
    ensures Split(ImageOf(conv, line).name) == Fields(line)[9..]
  {
    SplitTokens(Strip(line));
    SplitJoin(Fields(line)[9..]);
  }

  /**
   * The pose line `line` yields `im`: id from field 0, rotation (qw, qx, qy, qz)
   * from fields 1-4, translation from fields 5-7, camera id from field 8, and
   * the name as fields 9.. joined by single spaces.
   */
  predicate RecordOfLine(conv: Conv, line: string, im: Image)
  {
    && IsPoseLine(line)
    && var f := Fields(line);
    && im.imageId == conv.toInt(f[0])
    && im.q == Quat(conv.toReal(f[1]), conv.toReal(f[2]), conv.toReal(f[3]), conv.toReal(f[4]))
    && im.t == Vec3(conv.toReal(f[5]), conv.toReal(f[6]), conv.toReal(f[7]))
    && im.cameraId == conv.toInt(f[8])
    && im.name == Join(f[9..])
  }

  /** Every record read comes from a pose line of the file, field by field. */
  lemma {:induction false} PoseRecordsFromLines(lines: seq<string>, conv: Conv)
    ensures forall k :: 0 <= k < |PoseRecords(lines, conv)| ==>
              exists j :: 0 <= j < |lines| && RecordOfLine(conv, lines[j], PoseRecords(lines, conv)[k])
    decreases |lines|
  {
    if lines != [] {
      var pose := IsPoseLine(lines[0]);
      var off := if pose then 2 else 1;
      var rest := if |lines| >= off then lines[off..] else [];
      var recs := PoseRecords(lines, conv);
      PoseRecordsFromLines(rest, conv);
      forall k | 0 <= k < |recs|
        ensures exists j :: 0 <= j < |lines| && RecordOfLine(conv, lines[j], recs[k])
      {
        if pose && k == 0 {
          assert RecordOfLine(conv, lines[0], recs[0]);
        } else {
          var k' := if pose then k - 1 else k;
          assert recs[k] == PoseRecords(rest, conv)[k'];
          var j' :| 0 <= j' < |rest| && RecordOfLine(conv, rest[j'], PoseRecords(rest, conv)[k']);
          assert rest[j'] == lines[j' + off];
          assert RecordOfLine(conv, lines[j' + off], recs[k]);
        }
      }
      assert recs == PoseRecords(lines, conv);
    } else {
      assert PoseRecords(lines, conv) == [];
    }
  }

  /** Every record uses two lines, except possibly the last one. */
  lemma {:induction false} PoseRecordsBound(lines: seq<string>, conv: Conv)
    ensures 2 * |PoseRecords(lines, conv)| <= |lines| + 1
    decreases |lines|
  {
    if lines != [] {
      if !IsPoseLine(lines[0]) {
        PoseRecordsBound(lines[1..], conv);
      } else if |lines| >= 2 {
        PoseRecordsBound(lines[2..], conv);
      }
    }
  }

  // ------------------------------------------------------------ points3D.txt

  /**
   * A line the point reader keeps: not blank, not a comment, and at least
   * four fields of the unstripped line.
   */
  predicate IsPointLine(line: string)
  {
    !IsCommentOrBlank(line) && |Split(line)| >= 4
  }

  /** The position of a point line: fields 1, 2 and 3. */
  function PointOf(conv: Conv, line: string): Vec3
    requires |Split(line)| >= 4
  {
    var p := Split(line);
    Vec3(conv.toReal(p[1]), conv.toReal(p[2]), conv.toReal(p[3]))
  }

  /** The points in file order. */
  function PointsOf(lines: seq<string>, conv: Conv): seq<Vec3>
  {
    if lines == [] then []
    else if IsPointLine(lines[0]) then [PointOf(conv, lines[0])] + PointsOf(lines[1..], conv)
    else PointsOf(lines[1..], conv)
  }

  /** `parse_points3D_txt`: the list built line by line. */
  method ParsePoints(lines: seq<string>, conv: Conv) returns (pts: seq<Vec3>)
    ensures pts == PointsOf(lines, conv)
  {
    pts := [];
    for i := 0 to |lines|
      invariant pts + PointsOf(lines[i..], conv) == PointsOf(lines, conv)
    {
      assert lines[i..][1..] == lines[i + 1..];
      var line := lines[i];
      if IsCommentOrBlank(line) {
        continue;
      }
      var p := Split(line);
      if |p| < 4 {
        continue;
      }
      pts := pts + [Vec3(conv.toReal(p[1]), conv.toReal(p[2]), conv.toReal(p[3]))];
    }
  }

  /** The points are exactly those of the point lines, one each, in file order. */
  lemma {:induction false} PointsOfPointLines(lines: seq<string>, conv: Conv)
    ensures |PointsOf(lines, conv)| == |Filter(lines, IsPointLine)|
    ensures forall k :: 0 <= k < |PointsOf(lines, conv)| ==>
              var p := Split(Filter(lines, IsPointLine)[k]);
              PointsOf(lines, conv)[k] == Vec3(conv.toReal(p[1]), conv.toReal(p[2]), conv.toReal(p[3]))
    decreases |lines|
  {
    if lines != [] {
      PointsOfPointLines(lines[1..], conv);
    }
  }
}
