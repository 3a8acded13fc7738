/**
 * The focal length of a camera in millimetres, from its focal length in
 * pixels, the image width and the sensor width
 * (src/COLMAP_Tracking_Importer_C4D_v1_3.py:107-118).
 */
module Intrinsics {
  import opened Wrappers
  import opened Parsers

  /** Returned when the image width is not positive. */
  const FALLBACK_MM: real := 36.0

  /**
   * `mm_from_pixels`: the override, when given, replaces the pixel focal
   * length; the result is to the sensor width what the pixel focal length is
   * to the image width.  Multiplying a missing focal length by the sensor
   * width raises in the source, so one must be present whenever the width is
   * positive.
   */
  function MmFromPixels(fInPx: Option<real>, sensorMm: real, widthPx: real, fxOverride: Option<real>): (r: real)
    requires widthPx > 0.0 ==> fxOverride.Some? || fInPx.Some?
    ensures widthPx <= 0.0 ==> r == FALLBACK_MM
    ensures widthPx > 0.0 && fxOverride.Some? ==> r * widthPx == fxOverride.value * sensorMm
    ensures widthPx > 0.0 && fxOverride.None? ==> r * widthPx == fInPx.value * sensorMm
  {
    var fpx := if fxOverride.Some? then fxOverride else fInPx;
    if widthPx <= 0.0 then FALLBACK_MM else (fpx.value * sensorMm) / widthPx
  }

  /** ASCII upper case of one character; other characters are kept. */
  function UpperChar(c: char): char
  {
    if 'a' <= c <= 'z' then (c as int - 32) as char else c
  }

  /** `str.upper()` on ASCII letters. */
  function Upper(s: string): string
  {
    seq(|s|, k requires 0 <= k < |s| => UpperChar(s[k]))
  }

  /** The model names whose parameter 0 is passed as the pixel focal length. */
  predicate IsSimpleModel(model: string)
  {
    model in ["SIMPLE_PINHOLE", "SIMPLE_RADIAL", "SIMPLE_RADIAL_1", "SIMPLE_RADIAL_FISHEYE"]
  }

  /** The model names whose parameter 0 is passed as the override. */
  predicate IsPinholeModel(model: string)
  {
    model in ["PINHOLE", "OPENCV", "FULL_OPENCV", "OPENCV_FISHEYE"]
  }

  /**
   * `build_cam_params`: every model family reads parameter 0 (fx, or f) and
   * gets the same focal length, `params[0] * sensor / width`, or the
   * fallback for a non-positive width.  Indexing an empty parameter list
   * raises in the source whatever the width, so the list is never empty.
   */
  function BuildCamParams(cdef: CameraDef, sensorMm: real): (r: real)
    requires |cdef.params| > 0
    ensures cdef.width <= 0.0 ==> r == FALLBACK_MM
    ensures cdef.width > 0.0 ==> r == cdef.params[0] * sensorMm / cdef.width
  {
    var model := Upper(cdef.model);
    var p := cdef.params;
    if IsSimpleModel(model) then MmFromPixels(Some(p[0]), sensorMm, cdef.width, None)
    else if IsPinholeModel(model) then MmFromPixels(None, sensorMm, cdef.width, Some(p[0]))
    else MmFromPixels(Some(p[0]), sensorMm, cdef.width, None)
  }

  /** The model tag makes no difference: two cameras that differ only in it get the same focal length. */
  lemma FocalIgnoresModel(cdef: CameraDef, model: string, sensorMm: real)
    requires |cdef.params| > 0
    ensures BuildCamParams(cdef.(model := model), sensorMm) == BuildCamParams(cdef, sensorMm)
  {
  }

  /** The focal length grows in proportion to the sensor width. */
  lemma FocalProportionalToSensor(cdef: CameraDef, sensorMm: real, k: real)
    requires |cdef.params| > 0 && cdef.width > 0.0
    ensures BuildCamParams(cdef, k * sensorMm) == k * BuildCamParams(cdef, sensorMm)
  {
    assert cdef.params[0] * (k * sensorMm) / cdef.width == k * (cdef.params[0] * sensorMm / cdef.width);
  }

  /** A 1000 pixel focal length on a 1920 pixel wide image and a 36 mm sensor is 18.75 mm, for any model. */
  lemma FocalExample(model: string)
    ensures BuildCamParams(CameraDef(model, 1920.0, 1080.0, [1000.0]), 36.0) == 18.75
  {
  }

  /** A lower-case tag falls in the same family as its upper-case form. */
  lemma UpperExample()
    ensures IsPinholeModel(Upper("opencv")) && IsSimpleModel(Upper("simple_radial"))
  {
    assert Upper("opencv") == "OPENCV";
    assert Upper("simple_radial") == "SIMPLE_RADIAL";
  }
}
