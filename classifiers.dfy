/**
 * Threshold classifiers and the derived insulin-resistance index. Every cut
 * point is encoded exactly as the rule writes it (strict or not); a severity
 * rank per band makes monotonicity statable: a worse value never lands in a
 * milder band.
 */
module Classifiers {
  import opened Wrappers

  datatype VitaminDStatus = VitaminDDeficient | VitaminDInsufficient | VitaminDAdequate

  function VitaminDSeverity(c: VitaminDStatus): nat
  {
    match c
    case VitaminDDeficient => 2
    case VitaminDInsufficient => 1
    case VitaminDAdequate => 0
  }

  /** Vitamin D in ng/mL: below 20 deficient, from 20 up to 30 insufficient, 30 or more adequate. */
  function VitaminDBand(level: real): (c: VitaminDStatus)
    ensures c == VitaminDDeficient <==> level < 20.0
    ensures c == VitaminDInsufficient <==> 20.0 <= level < 30.0
    ensures c == VitaminDAdequate <==> 30.0 <= level
  {
    if level < 20.0 then VitaminDDeficient
    else if level < 30.0 then VitaminDInsufficient
    else VitaminDAdequate
  }

  /** A lower vitamin D level is never classified milder than a higher one. */
  lemma VitaminDMonotone(lower: real, higher: real)
    requires lower <= higher
    ensures VitaminDSeverity(VitaminDBand(lower)) >= VitaminDSeverity(VitaminDBand(higher))
  {
  }

  datatype ThicknessBand = ThinEndometrium | BorderlineEndometrium | AdequateEndometrium

  function ThicknessSeverity(c: ThicknessBand): nat
  {
    match c
    case ThinEndometrium => 2
    case BorderlineEndometrium => 1
    case AdequateEndometrium => 0
  }

  /** Maximum endometrial thickness in mm: below 7 thin, from 7 up to 9 borderline, 9 or more adequate. */
  function ThicknessClass(mm: real): (c: ThicknessBand)
    ensures c == ThinEndometrium <==> mm < 7.0
    ensures c == BorderlineEndometrium <==> 7.0 <= mm < 9.0
    ensures c == AdequateEndometrium <==> 9.0 <= mm
  {
    if mm < 7.0 then ThinEndometrium
    else if mm >= 7.0 && mm < 9.0 then BorderlineEndometrium
    else AdequateEndometrium
  }

  /** A thinner endometrium is never classified milder than a thicker one. */
  lemma ThicknessMonotone(thinner: real, thicker: real)
    requires thinner <= thicker
    ensures ThicknessSeverity(ThicknessClass(thinner)) >= ThicknessSeverity(ThicknessClass(thicker))
  {
  }

  datatype CrpBand = CrpVeryHigh | CrpElevated | CrpNormal

  function CrpSeverity(c: CrpBand): nat
  {
    match c
    case CrpVeryHigh => 2
    case CrpElevated => 1
    case CrpNormal => 0
  }

  /** C-reactive protein in mg/L: above 10 very high, above 3 up to 10 elevated, otherwise normal. */
  function CrpClass(mgPerL: real): (c: CrpBand)
    ensures c == CrpVeryHigh <==> mgPerL > 10.0
    ensures c == CrpElevated <==> 3.0 < mgPerL <= 10.0
    ensures c == CrpNormal <==> mgPerL <= 3.0
  {
    if mgPerL > 10.0 then CrpVeryHigh
    else if mgPerL > 3.0 then CrpElevated
    else CrpNormal
  }

  /** A higher CRP is never classified milder than a lower one. */
  lemma CrpMonotone(lower: real, higher: real)
    requires lower <= higher
    ensures CrpSeverity(CrpClass(higher)) >= CrpSeverity(CrpClass(lower))
  {
  }

  datatype TshBand = TshElevated | TshSuppressed | TshInTarget

  /** TSH in mUI/L: above 2.5 elevated, below 0.5 suppressed; the target range 0.5 to 2.5 includes both ends. */
  function TshClass(mUIPerL: real): (c: TshBand)
    ensures c == TshElevated <==> mUIPerL > 2.5
    ensures c == TshSuppressed <==> mUIPerL < 0.5
    ensures c == TshInTarget <==> 0.5 <= mUIPerL <= 2.5
  {
    if mUIPerL > 2.5 then TshElevated
    else if mUIPerL < 0.5 then TshSuppressed
    else TshInTarget
  }

  /** The index value: fasting glycemia (mg/dL) times fasting insulin (µU/mL) over 405. */
  function HomaIrValue(glycemia: int, insulin: real): real
  {
    (glycemia as real * insulin) / 405.0
  }

  /**
   * HOMA-IR, defined only when both operands are positive; otherwise it is
   * absent, never zero.
   */
  function HomaIr(glycemia: int, insulin: real): (h: Option<real>)
    ensures h.Some? <==> glycemia > 0 && insulin > 0.0
    ensures h.Some? ==> h.value > 0.0
  {
    if glycemia > 0 && insulin > 0.0 then Some(HomaIrValue(glycemia, insulin)) else None
  }

  /** A defined index is the product of its operands over 405. */
  lemma HomaIrFormula(glycemia: int, insulin: real)
    ensures HomaIr(glycemia, insulin).Some? ==> HomaIr(glycemia, insulin).value * 405.0 == glycemia as real * insulin
  {
  }

  datatype HomaIrBand = HomaIrUndefined | InsulinResistant | HomaIrBorderline | HomaIrNormal

  function HomaIrSeverity(c: HomaIrBand): nat
  {
    match c
    case InsulinResistant => 2
    case HomaIrBorderline => 1
    case HomaIrNormal => 0
    case HomaIrUndefined => 0
  }

  /** Above 2.5 insulin resistance, above 1.9 up to 2.5 borderline, 1.9 or less normal; an absent index has its own band. */
  function HomaIrClass(h: Option<real>): (c: HomaIrBand)
    ensures c == HomaIrUndefined <==> h.None?
    ensures c == InsulinResistant <==> h.Some? && h.value > 2.5
    ensures c == HomaIrBorderline <==> h.Some? && 1.9 < h.value <= 2.5
    ensures c == HomaIrNormal <==> h.Some? && h.value <= 1.9
  {
    match h
    case None => HomaIrUndefined
    case Some(v) => if v > 2.5 then InsulinResistant else if v > 1.9 then HomaIrBorderline else HomaIrNormal
  }

  /** The insulin-resistance band read directly off the raw product: glycemia × insulin above 1012.5. */
  lemma InsulinResistanceByProduct(glycemia: int, insulin: real)
    ensures HomaIrClass(HomaIr(glycemia, insulin)) == InsulinResistant
        <==> glycemia > 0 && insulin > 0.0 && glycemia as real * insulin > 1012.5
    ensures HomaIrClass(HomaIr(glycemia, insulin)) == HomaIrBorderline
        <==> glycemia > 0 && insulin > 0.0 && 769.5 < glycemia as real * insulin <= 1012.5
  {
  }

  /** With glycemia fixed, more insulin never gives a milder band (as long as the index stays defined). */
  lemma HomaIrMonotoneInInsulin(glycemia: int, lower: real, higher: real)
    requires glycemia > 0 && 0.0 < lower <= higher
    ensures HomaIrSeverity(HomaIrClass(HomaIr(glycemia, higher))) >= HomaIrSeverity(HomaIrClass(HomaIr(glycemia, lower)))
  {
  }
}
