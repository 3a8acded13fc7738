# COLMAP tracking importer for Cinema 4D: a verified model of its core

The importer reads a COLMAP/GLoMap reconstruction in its text format and
animates a camera in Cinema 4D with it. This project models the importer's
computational core in Dafny, from the text lines of the model files to the
keys the camera receives, and proves what that core guarantees:

- **Folder selection** (`Folders`): the model folder under `sparse`.
- **Parsers** (`Parsers`, with `Text` for `strip`, `split` and `join`, and `Sorting` for Python's stable sort):
  - `cameras.txt`: a dictionary by id, where a later line wins;
  - `images.txt`: two-line records, stably sorted by image id;
  - `points3D.txt`: positions in file order.
- **Focal length** (`Intrinsics`): millimetres from pixels.
- **Pose conversion** (`Geometry`, `Rotation`, `Transform`):
  - a quaternion becomes a rotation matrix;
  - the pose is inverted;
  - the world Y axis is flipped, then the camera's local Y axis.
- **Angle unwrapping** (`Unwrap`): each Euler angle is shifted by whole turns until it lies within half a turn of the previous one.
- **Trajectory assembly** (`Trajectory`):
  - one keyframe per sorted image whose camera is known;
  - the scaled, Y-flipped point cloud;
  - the keys baked onto the camera;
  - the import's error paths.

The two versions of the script share the modelled functions verbatim
(src/COLMAP_Tracking_Importer_C4D_v1_2.py:20-187 and
src/COLMAP_Tracking_Importer_C4D_v1_3.py:20-187). The table cites version 1.3.

**Keyframe times.** A keyframe's time is the image's position in the whole
sorted image list (src/COLMAP_Tracking_Importer_C4D_v1_3.py:557, 565), so an
image whose camera is unknown leaves a gap in the frame numbers.
`Trajectory.KeyframesKeepGaps` states this.

**Square root.** The quaternion is normalised without a square root. Every entry
of the matrix has degree two in the quaternion, so dividing each product by
the squared norm gives the same entries as normalising first.

## Model

| member | source | states |
|---|---|---|
| `Folders.FindSparseTxtFolderSpec` | src/COLMAP_Tracking_Importer_C4D_v1_3.py:20-37 | No `sparse` folder gives nothing. A `sparse` folder holding the three files is itself the answer. An unlistable folder gives nothing. Otherwise the answer is the least name, in Python string order, among the listed sub-folders holding the three files, or nothing when there is none. |
| `Folders.FoundFolderHoldsModel` | src/COLMAP_Tracking_Importer_C4D_v1_3.py:24-33 | Any folder found is a folder holding cameras.txt, images.txt and points3D.txt. |
| `Folders.FirstMatchIsFirst` | src/COLMAP_Tracking_Importer_C4D_v1_3.py:31-34 | The loop returns the earliest qualifying child, and nothing when no child qualifies. |
| `Folders.FirstMatchOfSorted` | src/COLMAP_Tracking_Importer_C4D_v1_3.py:31-34 | On a list sorted by name, the earliest qualifying child is the least qualifying name. |
| `Folders.LexLeTotalPreorder` | src/COLMAP_Tracking_Importer_C4D_v1_3.py:31 | Code-point string order is total and transitive, so `sorted` on names is well defined. |
| `Folders.LexLeAntisymmetric` | src/COLMAP_Tracking_Importer_C4D_v1_3.py:31 | Two names ordered both ways are equal, so distinct names sort strictly. |
| `Text.StripProperties` | src/COLMAP_Tracking_Importer_C4D_v1_3.py:46 | `strip` removes only leading and trailing whitespace. What it keeps starts and ends with a non-space. |
| `Text.SplitTokens` | src/COLMAP_Tracking_Importer_C4D_v1_3.py:48 | Every field of `split()` is non-empty and holds no whitespace. |
| `Text.SplitGaps` | src/COLMAP_Tracking_Importer_C4D_v1_3.py:48 | The line is its `split()` fields with whitespace runs around them, every run between two fields non-empty: the fields are the maximal non-whitespace runs, in order. |
| `Text.SplitJoin` | src/COLMAP_Tracking_Importer_C4D_v1_3.py:71 | Splitting the single-space join of fields gives the fields back. |
| `Sorting.SortSorted` | src/COLMAP_Tracking_Importer_C4D_v1_3.py:74 | The sorted list is ordered by the key. |
| `Sorting.SortPermutation` | src/COLMAP_Tracking_Importer_C4D_v1_3.py:74 | The sorted list holds the same elements, each as often. |
| `Sorting.SortStable` | src/COLMAP_Tracking_Importer_C4D_v1_3.py:74 | Elements with equal keys keep their relative order. |
| `Parsers.ParseCameras` | src/COLMAP_Tracking_Importer_C4D_v1_3.py:41-52 | The loop builds the dictionary of the lines read in order, skipping blank and `#` lines. |
| `Parsers.CamerasKeys` | src/COLMAP_Tracking_Importer_C4D_v1_3.py:45-51 | An id is in the dictionary exactly when some camera line carries it. |
| `Parsers.CamerasLastWins` | src/COLMAP_Tracking_Importer_C4D_v1_3.py:48-51 | The entry for an id is that of the last line carrying it: field 1 as the model, fields 2 and 3 as width and height, fields 4.. in order as the parameters. |
| `Parsers.ParseImages` | src/COLMAP_Tracking_Importer_C4D_v1_3.py:54-75 | The readline loop collects the records of the pose lines, each taking the next line with it, then sorts them by id. |
| `Parsers.ImagesSorted` | src/COLMAP_Tracking_Importer_C4D_v1_3.py:74 | The image list is sorted ascending by id. |
| `Parsers.ImagesPermutation` | src/COLMAP_Tracking_Importer_C4D_v1_3.py:74 | The image list is a permutation of the records read: same records, same multiplicities. |
| `Parsers.ImagesStable` | src/COLMAP_Tracking_Importer_C4D_v1_3.py:74 | Records with equal ids keep their file order (Python's sort is stable). |
| `Parsers.TiesWithById` | src/COLMAP_Tracking_Importer_C4D_v1_3.py:74 | Two records tie under the sort key exactly when their ids are equal. |
| `Parsers.PairedLineIgnored` | src/COLMAP_Tracking_Importer_C4D_v1_3.py:72 | The line after a pose line is dropped unread, even when it is itself a pose line. |
| `Parsers.ShortLineSkipped` | src/COLMAP_Tracking_Importer_C4D_v1_3.py:62-64 | A blank line, a `#` line or a line of fewer than ten fields adds no record and takes no line with it. |
| `Parsers.PoseRecordsFromLines` | src/COLMAP_Tracking_Importer_C4D_v1_3.py:65-71 | Every record read comes from a pose line of the file: image id from field 0, rotation (qw, qx, qy, qz) from fields 1-4, translation from fields 5-7, camera id from field 8, and the name as fields 9.. joined by single spaces. |
| `Parsers.ImageNameWords` | src/COLMAP_Tracking_Importer_C4D_v1_3.py:71 | The words of a record's name are exactly fields 9.. of its line. |
| `Parsers.PoseRecordsBound` | src/COLMAP_Tracking_Importer_C4D_v1_3.py:58-72 | A file of n lines yields at most (n + 1) / 2 records. |
| `Parsers.ParsePoints` | src/COLMAP_Tracking_Importer_C4D_v1_3.py:77-87 | The loop builds the points of the lines read in order. |
| `Parsers.PointsOfPointLines` | src/COLMAP_Tracking_Importer_C4D_v1_3.py:82-86 | There is exactly one point per line with four or more fields, in file order, and the k-th point is fields 1, 2 and 3 of the k-th such line. |
| `Intrinsics.MmFromPixels` | src/COLMAP_Tracking_Importer_C4D_v1_3.py:107-110 | A non-positive width gives 36.0. Otherwise the result is to the sensor width as the pixel focal length (the override when given) is to the image width. |
| `Intrinsics.BuildCamParams` | src/COLMAP_Tracking_Importer_C4D_v1_3.py:112-118 | Every model tag, known or not, gives `params[0] * sensor / width`, or exactly 36.0 when the width is not positive. |
| `Intrinsics.FocalIgnoresModel` | src/COLMAP_Tracking_Importer_C4D_v1_3.py:113-118 | Changing only the model tag does not change the focal length. |
| `Intrinsics.FocalProportionalToSensor` | src/COLMAP_Tracking_Importer_C4D_v1_3.py:110 | The focal length is proportional to the sensor width. |
| `Intrinsics.FocalExample` | src/COLMAP_Tracking_Importer_C4D_v1_3.py:112-118 | params [1000], width 1920 and a 36 mm sensor give 18.75 mm, for any tag. |
| `Intrinsics.UpperExample` | src/COLMAP_Tracking_Importer_C4D_v1_3.py:113-116 | An illustration: the tag is upper-cased before the family test, so `opencv` and `simple_radial` fall in their families; by `Intrinsics.FocalIgnoresModel` this changes no focal length. |
| `Rotation.QuatToMatrixIsRotation` | src/COLMAP_Tracking_Importer_C4D_v1_3.py:91-105 | For every quaternion the basis is a proper rotation. The all-zero quaternion gives the identity. |
| `Rotation.QuatToMatrixDet` | src/COLMAP_Tracking_Importer_C4D_v1_3.py:91-105 | The basis has determinant 1. |
| `Rotation.UnitQuatMatrix` | src/COLMAP_Tracking_Importer_C4D_v1_3.py:96-104 | For a unit quaternion the columns are v1 = (r00, r10, r20), v2 = (r01, r11, r21), v3 = (r02, r12, r22), from the products of the components. |
| `Rotation.TransposeIsConjugate` | src/COLMAP_Tracking_Importer_C4D_v1_3.py:91-105 | The transposed basis is the basis of the conjugate quaternion: the inverse rotation. |
| `Rotation.ColumnsOfNormalised` | src/COLMAP_Tracking_Importer_C4D_v1_3.py:92-94 | Normalising by the norm gives the columns of the raw products divided by the squared norm. |
| `Geometry.OrthonormalInverse` | src/COLMAP_Tracking_Importer_C4D_v1_3.py:148-152 | An orthonormal basis is inverted by its transpose. |
| `Geometry.RotationDet` | src/COLMAP_Tracking_Importer_C4D_v1_3.py:101-104 | A rotation has determinant 1. |
| `Geometry.MulVScale` | src/COLMAP_Tracking_Importer_C4D_v1_3.py:152 | Applying a basis commutes with scaling the vector. |
| `Transform.BWorldFlipsY` | src/COLMAP_Tracking_Importer_C4D_v1_3.py:121-128 | `apply_B_to_vec` with `B_WORLD` negates y and keeps x and z. |
| `Transform.BWorldVecInvolution` | src/COLMAP_Tracking_Importer_C4D_v1_3.py:121-128 | Applying `B_WORLD` to a vector twice gives it back. |
| `Transform.BWorldMatrixFlipsY` | src/COLMAP_Tracking_Importer_C4D_v1_3.py:130-136 | `apply_B_to_matrix` negates y in every column and in the offset. |
| `Transform.BWorldMatrixInvolution` | src/COLMAP_Tracking_Importer_C4D_v1_3.py:130-136 | Applying `B_WORLD` to a matrix twice gives it back. |
| `Transform.ApplyBIsLeftProduct` | src/COLMAP_Tracking_Importer_C4D_v1_3.py:123-136 | Applying any B column by column and to the offset is the host product with B on the left. |
| `Transform.FlipYColumns` | src/COLMAP_Tracking_Importer_C4D_v1_3.py:138-144 | `right_multiply_flip_y` negates v2 and keeps v1, v3 and the offset. |
| `Transform.FlipYInvolution` | src/COLMAP_Tracking_Importer_C4D_v1_3.py:138-144 | `right_multiply_flip_y` undoes itself. |
| `Transform.ColmapToC4dColumns` | src/COLMAP_Tracking_Importer_C4D_v1_3.py:146-155 | v1 = flipY(Rᵀ column 1), v2 = −flipY(Rᵀ column 2), v3 = flipY(Rᵀ column 3) and off = flipY(−Rᵀ·t). |
| `Transform.ColmapToC4dInverse` | src/COLMAP_Tracking_Importer_C4D_v1_3.py:146-155 | Undoing both axis fixes recovers the basis Rᵀ and the camera centre −Rᵀ·t. |
| `Transform.ColmapToC4dRecoversTranslation` | src/COLMAP_Tracking_Importer_C4D_v1_3.py:146-155 | Undoing the fixes and applying R to the negated offset gives back the translation t. |
| `Transform.ColmapToC4dIsRotation` | src/COLMAP_Tracking_Importer_C4D_v1_3.py:146-155 | For every pose, the imported camera basis is a proper rotation. |
| `Unwrap.UnwrapAngle` | src/COLMAP_Tracking_Importer_C4D_v1_3.py:159-174 | With no previous angle, the angle is returned as is. Otherwise the result lies in (prev − π, prev + π] and differs from the input by a whole number of turns. |
| `Unwrap.TurnsUnique` | src/COLMAP_Tracking_Importer_C4D_v1_3.py:168-173 | Only one whole number of turns brings a difference into (−π, π]. |
| `Unwrap.UnwrappedInRange` | src/COLMAP_Tracking_Importer_C4D_v1_3.py:168-173 | The unwrapped angle lies within half a turn of the previous one. |
| `Unwrap.UnwrappedSameAngle` | src/COLMAP_Tracking_Importer_C4D_v1_3.py:159-174 | The unwrapped angle equals the raw one up to whole turns. |
| `Unwrap.UnwrappedKeepsNearAngle` | src/COLMAP_Tracking_Importer_C4D_v1_3.py:168-173 | An angle already within half a turn of prev is unchanged. |
| `Unwrap.UnwrappedUnique` | src/COLMAP_Tracking_Importer_C4D_v1_3.py:159-174 | Any angle congruent to the input and within half a turn of prev is the result. |
| `Unwrap.UnwrappedIdempotent` | src/COLMAP_Tracking_Importer_C4D_v1_3.py:159-174 | Unwrapping an unwrapped angle again against the same prev changes nothing. |
| `Unwrap.UnwrapHpbProperties` | src/COLMAP_Tracking_Importer_C4D_v1_3.py:176-187 | The result is also the new prev. With no prev the triple passes through raw. Each channel lies within half a turn of prev and equals the raw channel up to whole turns. |
| `Unwrap.UnwrapTrackStep` | src/COLMAP_Tracking_Importer_C4D_v1_3.py:214-224 | Each frame is its raw triple unwrapped against the frame before. |
| `Unwrap.UnwrapTrackProperties` | src/COLMAP_Tracking_Importer_C4D_v1_3.py:214-224 | The first frame is raw. Consecutive frames differ by at most half a turn per channel. Every frame equals its raw triple up to whole turns. |
| `Unwrap.UnwrapTrackPrefix` | src/COLMAP_Tracking_Importer_C4D_v1_3.py:214-224 | Later frames never change earlier ones. |
| `Trajectory.BuildKeyframes` | src/COLMAP_Tracking_Importer_C4D_v1_3.py:556-565 | The loop builds the keyframes of the images in order, skipping images whose camera is unknown. |
| `Trajectory.KeyframesFromImages` | src/COLMAP_Tracking_Importer_C4D_v1_3.py:557-565 | Each keyframe is that of the image at its frame number, which has a known camera. The time is the position in the full list, the translation is scaled before the conversion, and the focal length is that of the image's camera. Frame numbers strictly increase, and there are no more keys than images. |
| `Trajectory.KeyframesComplete` | src/COLMAP_Tracking_Importer_C4D_v1_3.py:557-565 | Every image with a known camera has a keyframe at its own position. |
| `Trajectory.KeyframesKeepGaps` | src/COLMAP_Tracking_Importer_C4D_v1_3.py:557-565 | Times are not compacted: after one image with an unknown camera, the first keyframe is at frame 1. |
| `Trajectory.KeyframesWithinTimeline` | src/COLMAP_Tracking_Importer_C4D_v1_3.py:540-546 | Every keyframe lies in the timeline [0, max(1, number of images)). |
| `Trajectory.ScaleMovesPositionOnly` | src/COLMAP_Tracking_Importer_C4D_v1_3.py:561-564 | Scaling the translation keeps the basis and scales the camera position by the same factor. |
| `Trajectory.KeyframesAreRotations` | src/COLMAP_Tracking_Importer_C4D_v1_3.py:556-565 | Every keyframe's basis is a proper rotation. |
| `Trajectory.PointCloudVertices` | src/COLMAP_Tracking_Importer_C4D_v1_3.py:551 | A vertex is its point scaled, with y negated. For a non-zero scale the point is recovered from it. |
| `Trajectory.BakeKeys` | src/COLMAP_Tracking_Importer_C4D_v1_3.py:209-235 | Every key keeps its time, position and focal length. Its angles equal the raw angles up to whole turns, are raw at the first key, and lie within half a turn of the previous key's. |
| `Trajectory.ImportModel` | src/COLMAP_Tracking_Importer_C4D_v1_3.py:526-565 | The import fails exactly when the camera dictionary or the image list is empty. Otherwise the camera gets the baked keyframes of the sorted images, and the cloud holds the scaled, flipped points when points are asked for. |
| `Trajectory.DoImport` | src/COLMAP_Tracking_Importer_C4D_v1_3.py:510-531 | A missing scene folder or model folder fails. Otherwise the result is the import of the chosen folder's three files. |

## Left out

- The dialog, its layout, FPS presets and message boxes: user interface. Error messages become `Failure` values.
- The Cinema 4D scene calls. These are tracks, key insertion, `SetMg`, the aperture value, the polygon object, the MoGraph matrix object, the null, the duplicated camera and its constraint tag, undo, and the render settings. Their behaviour is not visible from the importer. The model stops at the keys and vertices handed to them.
- The Redshift camera plugin lookup (`find_rs_camera_object_id`): a host plugin query. The model assumes the camera is found.
- `utils.MatrixToHPB`: a host Euler extraction. It is the parameter `hpbOf`.
- Files and the file system:
  - `os.path.isdir`, `isfile` and `listdir` are the abstract `FileSystem`.
  - A file's lines are given by `read`, and a missing file reads as no lines.
  - Reading line by line is a sequence of lines, and an empty string is treated as a blank line.
  - An exception while listing reads as an absent listing.
- `int()` and `float()` on fields: the total functions of `Conv`. Their parse errors are not modelled.
- Floating point: coordinates, angles and focal lengths are exact reals. π is the rational 3.141592653589793, and rounding is not modelled. Because subtraction is exact, the two running values of the unwrap loop (`curr` and `delta`) stay consistent.
- Termination of `_unwrap_angle` in floating point: with `curr` infinite, or with `|delta|` so large that `delta - twopi == delta`, the loops at src/COLMAP_Tracking_Importer_C4D_v1_3.py:168-173 never end. Over exact reals each iteration moves `delta` by a full turn, so the model's loops end. The angles `MatrixToHPB` returns are bounded, so the source does not reach these inputs.
- `math.sqrt`: the quaternion is normalised through the squared norm, which gives the same matrix for exact reals.
- `str.upper()` outside ASCII: only a–z are upper-cased. Some non-ASCII letters upper-case to ASCII ones in Python (dotless ı to I). The focal length is the same for every tag, so this changes no result.
- Python's sort algorithm: the model is an insertion sort with the same result, a stable sort by the key.
- `Parsers.CamerasOf`: a camera line with fewer than four fields raises in the source. The model requires every camera line to have four fields or more.
- `Intrinsics.BuildCamParams`: an empty parameter list raises in the source whatever the width. The model requires at least one parameter, for every camera that an image refers to.
- Timeline and preview-range setting through the host: only the end frame is modelled (`Trajectory.TimelineEnd`).
