/** The four hemisphere converters of `HurricancePrediction`
    (hurricane_prediction.py, `_lattoint`, `_longtoint`, `_convertlat`,
    `_convertlong`). */
module Coordinates {
  import opened Options

  /** A latitude or longitude cell as it stands in the file, such as "28.0N"
      or "94.8W". `text` is the raw cell, searched for a hemisphere letter;
      `magnitude` is the number that parsing every character but the last
      yields (`float(text[:-1])`), taken here as already parsed. */
  datatype CoordField = CoordField(text: string, magnitude: real)

  /** `_lattoint`: latitude on the shifted scale, N -> magnitude + 90,
      S -> 90 - magnitude, tested in that order; no letter gives None. */
  function LatToInt(c: CoordField): (r: Option<real>)
    ensures r.Some? <==> 'N' in c.text || 'S' in c.text
    ensures r.Some? && 0.0 <= c.magnitude <= 90.0 ==> 0.0 <= r.value <= 180.0
    ensures r.Some? && c.magnitude > 0.0 ==> (r.value > 90.0 <==> 'N' in c.text)
  {
    if 'N' in c.text then Some(c.magnitude + 90.0)
    else if 'S' in c.text then Some(90.0 - c.magnitude)
    else None
  }

  /** `_longtoint`: longitude on the shifted scale, W -> magnitude + 180,
      E -> 180 - magnitude, tested in that order; no letter gives None. */
  function LongToInt(c: CoordField): (r: Option<real>)
    ensures r.Some? <==> 'W' in c.text || 'E' in c.text
    ensures r.Some? && 0.0 <= c.magnitude <= 180.0 ==> 0.0 <= r.value <= 360.0
    ensures r.Some? && c.magnitude > 0.0 ==> (r.value > 180.0 <==> 'W' in c.text)
  {
    if 'W' in c.text then Some(c.magnitude + 180.0)
    else if 'E' in c.text then Some(180.0 - c.magnitude)
    else None
  }

  /** `_convertlat`: signed latitude, north positive. */
  function ConvertLat(c: CoordField): (r: Option<real>)
    ensures r.Some? <==> 'N' in c.text || 'S' in c.text
    ensures r.Some? ==> r.value == c.magnitude || r.value == -c.magnitude
    ensures r.Some? && 0.0 <= c.magnitude <= 90.0 ==> -90.0 <= r.value <= 90.0
    ensures r.Some? && c.magnitude > 0.0 ==> (r.value > 0.0 <==> 'N' in c.text)
  {
    if 'N' in c.text then Some(c.magnitude)
    else if 'S' in c.text then Some(0.0 - c.magnitude)
    else None
  }

  /** `_convertlong`: signed longitude, east positive. */
  function ConvertLong(c: CoordField): (r: Option<real>)
    ensures r.Some? <==> 'W' in c.text || 'E' in c.text
    ensures r.Some? ==> r.value == c.magnitude || r.value == -c.magnitude
    ensures r.Some? && 0.0 <= c.magnitude <= 180.0 ==> -180.0 <= r.value <= 180.0
    ensures r.Some? && c.magnitude > 0.0 ==> (r.value < 0.0 <==> 'W' in c.text)
  {
    if 'W' in c.text then Some(0.0 - c.magnitude)
    else if 'E' in c.text then Some(c.magnitude)
    else None
  }

  /** The shifted latitude is the signed latitude plus 90, for both
      hemispheres, and both are absent together. */
  lemma LatScalesAgree(c: CoordField)
    ensures LatToInt(c).Some? == ConvertLat(c).Some?
    ensures LatToInt(c).Some? ==> LatToInt(c).value == ConvertLat(c).value + 90.0
  {
  }

  /** The shifted longitude is 180 minus the signed longitude, for both
      hemispheres, and both are absent together. */
  lemma LongScalesAgree(c: CoordField)
    ensures LongToInt(c).Some? == ConvertLong(c).Some?
    ensures LongToInt(c).Some? ==> LongToInt(c).value == 180.0 - ConvertLong(c).value
  {
  }

  /** A cell holding both letters of an axis is read as the one tested
      first: N before S, W before E. */
  lemma FirstLetterWins(c: CoordField)
    ensures 'N' in c.text ==> LatToInt(c) == Some(c.magnitude + 90.0) && ConvertLat(c) == Some(c.magnitude)
    ensures 'W' in c.text ==> LongToInt(c) == Some(c.magnitude + 180.0) && ConvertLong(c) == Some(-c.magnitude)
    ensures 'N' !in c.text && 'S' in c.text ==> LatToInt(c) == Some(90.0 - c.magnitude) && ConvertLat(c) == Some(-c.magnitude)
    ensures 'W' !in c.text && 'E' in c.text ==> LongToInt(c) == Some(180.0 - c.magnitude) && ConvertLong(c) == Some(c.magnitude)
  {
  }
}
