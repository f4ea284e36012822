/** The axis-range dialog: four text fields that must all read as numbers,
    with each minimum not above its maximum, before the ranges are stored
    and the dialog is accepted. */
module AxisRange {
  import opened Common
  import opened Text

  /** What `on_apply_clicked` decides: a field `float()` rejects, a minimum
      above its maximum, or the four parsed bounds. */
  datatype RangeCheck =
    | NotNumeric
    | MinAboveMax
    | Accepted(xMin: real, xMax: real, yMin: real, yMax: real)

  /** The validation of `on_apply_clicked`: all four fields are parsed
      first, then the strict comparisons `x_min > x_max or y_min > y_max`
      reject; equal bounds pass. */
  function ValidateRanges(xMinText: string, xMaxText: string, yMinText: string, yMaxText: string): (r: RangeCheck)
    ensures r.NotNumeric? <==>
      ParseReal(xMinText).None? || ParseReal(xMaxText).None? || ParseReal(yMinText).None? || ParseReal(yMaxText).None?
    ensures r.Accepted? ==>
      Some(r.xMin) == ParseReal(xMinText) && Some(r.xMax) == ParseReal(xMaxText)
      && Some(r.yMin) == ParseReal(yMinText) && Some(r.yMax) == ParseReal(yMaxText)
      && r.xMin <= r.xMax && r.yMin <= r.yMax
    ensures r.MinAboveMax? ==>
      ParseReal(xMinText).value > ParseReal(xMaxText).value || ParseReal(yMinText).value > ParseReal(yMaxText).value
  {
    var xMin := ParseReal(xMinText);
    var xMax := ParseReal(xMaxText);
    var yMin := ParseReal(yMinText);
    var yMax := ParseReal(yMaxText);
    if xMin.None? || xMax.None? || yMin.None? || yMax.None? then NotNumeric
    else if xMin.value > xMax.value || yMin.value > yMax.value then MinAboveMax
    else Accepted(xMin.value, xMax.value, yMin.value, yMax.value)
  }

  /** A degenerate range is allowed: the same number typed as minimum and
      maximum on both axes is accepted. */
  lemma EqualBoundsAccepted(xText: string, yText: string)
    requires ParseReal(xText).Some? && ParseReal(yText).Some?
    ensures ValidateRanges(xText, xText, yText, yText).Accepted?
  {
  }

  /** Four numeric fields: accepted, with exactly the parsed values,
      precisely when each minimum is at most its maximum; rejected as
      MinAboveMax otherwise. */
  lemma ValidateNumbers(xMinText: string, xMaxText: string, yMinText: string, yMaxText: string,
                        x0: real, x1: real, y0: real, y1: real)
    requires ParseReal(xMinText) == Some(x0) && ParseReal(xMaxText) == Some(x1)
    requires ParseReal(yMinText) == Some(y0) && ParseReal(yMaxText) == Some(y1)
    ensures var r := ValidateRanges(xMinText, xMaxText, yMinText, yMaxText);
            (x0 <= x1 && y0 <= y1 ==> r == Accepted(x0, x1, y0, y1))
            && (x0 > x1 || y0 > y1 ==> r == MinAboveMax)
  {
  }

  /** Whole numbers typed into the fields are accepted exactly when each
      minimum is at most its maximum, and are stored as typed. */
  lemma {:induction false} IntegerBounds(a: int, b: int, c: int, d: int)
    ensures var r := ValidateRanges(IntToDecimal(a), IntToDecimal(b), IntToDecimal(c), IntToDecimal(d));
            (r.Accepted? <==> a <= b && c <= d)
            && (r.Accepted? ==> r == Accepted(a as real, b as real, c as real, d as real))
  {
    ParseIntRoundTrip(a);
    ParseIntRoundTrip(b);
    ParseIntRoundTrip(c);
    ParseIntRoundTrip(d);
    ParseRealExtendsParseInt(IntToDecimal(a), a);
    ParseRealExtendsParseInt(IntToDecimal(b), b);
    ParseRealExtendsParseInt(IntToDecimal(c), c);
    ParseRealExtendsParseInt(IntToDecimal(d), d);
    ValidateNumbers(IntToDecimal(a), IntToDecimal(b), IntToDecimal(c), IntToDecimal(d),
                    a as real, b as real, c as real, d as real);
  }

  class AxisRangeDialog {
    /** The texts of the four fields. */
    var inputXMin: string
    var inputXMax: string
    var inputYMin: string
    var inputYMax: string
    /** `_x_min, _x_max, _y_min, _y_max`: absent until an apply succeeds. */
    var stored: Option<(real, real, real, real)>
    /** Whether the dialog was accepted (rather than rejected). */
    var accepted: bool

    /** A new dialog: empty fields, nothing stored, not accepted. */
    constructor ()
      ensures StoredOrdered()
      ensures inputXMin == "" && inputXMax == "" && inputYMin == "" && inputYMax == ""
      ensures stored.None? && !accepted
    {
      inputXMin, inputXMax, inputYMin, inputYMax := "", "", "", "";
      stored := None;
      accepted := false;
    }

    /** `on_apply_clicked()`: on a rejected input nothing is stored and the
        dialog stays open; otherwise the four parsed bounds are stored and
        the dialog is accepted. The fields are not touched. */
    method OnApplyClicked()
      requires StoredOrdered()
      modifies this`stored, this`accepted
      ensures StoredOrdered()
      ensures var r := ValidateRanges(inputXMin, inputXMax, inputYMin, inputYMax);
              if r.Accepted? then stored == Some((r.xMin, r.xMax, r.yMin, r.yMax)) && accepted
              else stored == old(stored) && accepted == old(accepted)
    {
      var r := ValidateRanges(inputXMin, inputXMax, inputYMin, inputYMax);
      if r.Accepted? {
        assert r.xMin <= r.xMax && r.yMin <= r.yMax;
        stored := Some((r.xMin, r.xMax, r.yMin, r.yMax));
        accepted := true;
      }
    }

    /** `on_cancel_clicked()`: the dialog is rejected. */
    method OnCancelClicked()
      modifies this`accepted
      ensures !accepted
    {
      accepted := false;
    }

    /** `on_reset_clicked()`: the four fields are emptied; what was stored
        stays. */
    method OnResetClicked()
      modifies this`inputXMin, this`inputXMax, this`inputYMin, this`inputYMax
      ensures stored == old(stored)
      ensures inputXMin == "" && inputXMax == "" && inputYMin == "" && inputYMax == ""
    {
      inputXMin, inputXMax, inputYMin, inputYMax := "", "", "", "";
    }

    /** `get_ranges()`: the stored bounds, each minimum at most its
        maximum. Before any successful apply the attributes do not exist
        and the call raises AttributeError (None). */
    method GetRanges() returns (r: Option<(real, real, real, real)>)
      requires StoredOrdered()
      ensures r == stored
      ensures r.Some? ==> r.value.0 <= r.value.1 && r.value.2 <= r.value.3
    {
      r := stored;
    }

    /** Stored bounds are always ordered: only an accepted apply stores. */
    predicate StoredOrdered()
      reads this
    {
      stored.Some? ==> stored.value.0 <= stored.value.1 && stored.value.2 <= stored.value.3
    }
  }
}
