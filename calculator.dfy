/** Rounding a real number up to the next integer, as Python's `math.ceil`
    does, over exact reals. */
module Rounding {

  /** The least integer not below `x`. */
  function Ceil(x: real): (c: int)
    ensures c as real - 1.0 < x <= c as real
  {
    -((-x).Floor)
  }

  /** Rounding `a / b` up gives the least multiple count of `b` that reaches
      `a`: at least one when `a` is positive, and one fewer falls short. */
  lemma CeilQuotient(a: real, b: real)
    requires a > 0.0 && b > 0.0
    ensures Ceil(a / b) >= 1
    ensures (Ceil(a / b) - 1) as real * b < a <= Ceil(a / b) as real * b
  {
    var q := a / b;
    var n := Ceil(q);
    assert q * b == a;
    MulStrict(n as real - 1.0, q, b);
    MulMono(q, n as real, b);
    assert (n - 1) as real == n as real - 1.0;
  }

  /** Among counts `k`, `k * b` reaches `a` exactly when `k` is at least the
      rounded-up quotient. */
  lemma {:induction false} CeilQuotientLeast(a: real, b: real, k: int)
    requires a > 0.0 && b > 0.0
    ensures k as real * b >= a <==> k >= Ceil(a / b)
  {
    var n := Ceil(a / b);
    CeilQuotient(a, b);
    if k >= n {
      MulMono(n as real, k as real, b);
    } else {
      MulMono(k as real, (n - 1) as real, b);
    }
  }

  lemma MulStrict(x: real, y: real, b: real)
    requires x < y && b > 0.0
    ensures x * b < y * b
  {
  }

  lemma MulMono(x: real, y: real, b: real)
    requires x <= y && b > 0.0
    ensures x * b <= y * b
  {
  }
}

/** The fence-material estimator: a validator over the four inputs (run
    length, maximum post spacing, sheet width, sheet overlap) and the
    estimator it guards. */
module Calculator {
  import opened Rounding

  datatype Option<T> = None | Some(value: T)

  /** The five validation rules, one constructor per rule. */
  datatype Reason =
    | LengthNotPositive
    | SpacingNotPositive
    | WidthNotPositive
    | OverlapNegative
    | OverlapNotBelowWidth

  datatype Validation = Valid | Invalid(reason: Reason)

  /** The estimator's output, in the order `calculate_fence_materials`
      returns its counts. */
  datatype Materials = Materials(numPosts: int, numSpans: int, totalSheets: int, actualSpacing: real)

  /** Position of a rule in the order the validator checks them. */
  function Rank(r: Reason): nat
  {
    match r
    case LengthNotPositive => 0
    case SpacingNotPositive => 1
    case WidthNotPositive => 2
    case OverlapNegative => 3
    case OverlapNotBelowWidth => 4
  }

  /** Whether rule `r`, taken on its own, rejects the inputs. */
  predicate Fails(r: Reason, length: real, maxSpacing: real, sheetWidth: real, overlap: real) {
    match r
    case LengthNotPositive => length <= 0.0
    case SpacingNotPositive => maxSpacing <= 0.0
    case WidthNotPositive => sheetWidth <= 0.0
    case OverlapNegative => overlap < 0.0
    case OverlapNotBelowWidth => overlap >= sheetWidth
  }

  /** The domain of the estimator: every quantity positive and the overlap
      a non-negative amount strictly below the sheet width. */
  predicate InputsValid(length: real, maxSpacing: real, sheetWidth: real, overlap: real) {
    length > 0.0 && maxSpacing > 0.0 && sheetWidth > 0.0 && 0.0 <= overlap < sheetWidth
  }

  /** The user-facing text for each rule, as `validate_inputs` reports it. */
  function Message(r: Reason): (m: string)
    ensures |m| > 0
  {
    match r
    case LengthNotPositive => "Длина участка должна быть положительным числом"
    case SpacingNotPositive => "Расстояние между столбами должно быть положительным числом"
    case WidthNotPositive => "Ширина профлиста должна быть положительным числом"
    case OverlapNegative => "Нахлест не может быть отрицательным"
    case OverlapNotBelowWidth => "Нахлест должен быть меньше ширины профлиста"
  }

  /** The validator's guard chain: the first failing rule decides. */
  function Validate(length: real, maxSpacing: real, sheetWidth: real, overlap: real): (v: Validation)
    ensures v == Valid <==> InputsValid(length, maxSpacing, sheetWidth, overlap)
    ensures v.Invalid? ==> Fails(v.reason, length, maxSpacing, sheetWidth, overlap)
  {
    if length <= 0.0 then Invalid(LengthNotPositive)
    else if maxSpacing <= 0.0 then Invalid(SpacingNotPositive)
    else if sheetWidth <= 0.0 then Invalid(WidthNotPositive)
    else if overlap < 0.0 then Invalid(OverlapNegative)
    else if overlap >= sheetWidth then Invalid(OverlapNotBelowWidth)
    else Valid
  }

  /** The validator's result in the shape `validate_inputs` returns: a flag
      and, on failure only, a non-empty message. */
  function ValidateInputs(length: real, maxSpacing: real, sheetWidth: real, overlap: real): (res: (bool, Option<string>))
    ensures res.0 <==> InputsValid(length, maxSpacing, sheetWidth, overlap)
    ensures res.0 <==> res.1 == None
    ensures res.1.Some? ==> |res.1.value| > 0
  {
    match Validate(length, maxSpacing, sheetWidth, overlap)
    case Valid => (true, None)
    case Invalid(r) => (false, Some(Message(r)))
  }

  /** The reported reason is exactly the failing rule that comes first in
      the checking order; a valid result means no rule fails. */
  lemma ValidateReportsFirstFailure(length: real, maxSpacing: real, sheetWidth: real, overlap: real, r: Reason)
    ensures Validate(length, maxSpacing, sheetWidth, overlap) == Invalid(r) <==>
      Fails(r, length, maxSpacing, sheetWidth, overlap) &&
      forall q :: Rank(q) < Rank(r) ==> !Fails(q, length, maxSpacing, sheetWidth, overlap)
    ensures Validate(length, maxSpacing, sheetWidth, overlap) == Valid <==>
      forall q :: !Fails(q, length, maxSpacing, sheetWidth, overlap)
  {
  }

  /** The message `ValidateInputs` returns is the one of the first failing
      rule in the checking order, and of no other rule. */
  lemma ValidateInputsReportsFirstFailure(length: real, maxSpacing: real, sheetWidth: real, overlap: real, r: Reason)
    ensures ValidateInputs(length, maxSpacing, sheetWidth, overlap).1 == Some(Message(r)) <==>
      Fails(r, length, maxSpacing, sheetWidth, overlap) &&
      forall q :: Rank(q) < Rank(r) ==> !Fails(q, length, maxSpacing, sheetWidth, overlap)
  {
  }

  /** Rejection cases: a non-positive length is reported first whatever the
      other inputs are, and an overlap equal to the sheet width is the
      boundary that is refused, not accepted. */
  lemma RejectionCases(maxSpacing: real, sheetWidth: real, overlap: real)
    ensures Validate(0.0, maxSpacing, sheetWidth, overlap) == Invalid(LengthNotPositive)
    ensures Validate(-5.0, maxSpacing, sheetWidth, overlap) == Invalid(LengthNotPositive)
    ensures Validate(10.0, 0.0, 1.2, 0.05) == Invalid(SpacingNotPositive)
    ensures Validate(10.0, 2.5, 0.0, 0.05) == Invalid(WidthNotPositive)
    ensures Validate(10.0, 2.5, 1.2, -0.01) == Invalid(OverlapNegative)
    ensures Validate(10.0, 2.5, 1.2, 1.2) == Invalid(OverlapNotBelowWidth)
  {
  }

  /** Distinct rules are reported with distinct messages, so the message
      alone tells which rule failed. */
  lemma MessageInjective(r: Reason, q: Reason)
    requires Message(r) == Message(q)
    ensures r == q
  {
  }

  /** The estimator: spans by rounding length over the maximum spacing up,
      the run spread evenly over them, one post more than spans, and sheets
      by rounding length over the overlap-reduced sheet width up. */
  function Estimate(length: real, maxSpacing: real, sheetWidth: real, overlap: real): (m: Materials)
    requires InputsValid(length, maxSpacing, sheetWidth, overlap)
    ensures m.numSpans >= 1
    ensures (m.numSpans - 1) as real * maxSpacing < length <= m.numSpans as real * maxSpacing
    ensures m.actualSpacing * m.numSpans as real == length
    ensures 0.0 < m.actualSpacing <= maxSpacing
    ensures m.numPosts == m.numSpans + 1 && m.numPosts >= 2
    ensures m.totalSheets >= 1
    ensures (m.totalSheets - 1) as real * (sheetWidth - overlap) < length
    ensures length <= m.totalSheets as real * (sheetWidth - overlap)
  {
    var numSpans := Ceil(length / maxSpacing);
    CeilQuotient(length, maxSpacing);
    var actualSpacing := length / numSpans as real;
    assert actualSpacing <= maxSpacing by {
      SpreadWithin(length, maxSpacing, numSpans);
    }
    var effectiveWidth := sheetWidth - overlap;
    var totalSheets := Ceil(length / effectiveWidth);
    CeilQuotient(length, effectiveWidth);
    Materials(numSpans + 1, numSpans, totalSheets, actualSpacing)
  }

  /** Spreading `length` evenly over `n` spans keeps each within `maxSpacing`
      when `n` spans of that size reach the length. */
  lemma SpreadWithin(length: real, maxSpacing: real, n: int)
    requires length > 0.0 && maxSpacing > 0.0 && n >= 1
    requires length <= n as real * maxSpacing
    ensures length / n as real <= maxSpacing
  {
  }

  /** The span count is the least count whose even spacing stays within the
      maximum: any count `k` keeps within it exactly when `k` is at least
      the estimated span count. */
  lemma {:induction false} SpansLeast(length: real, maxSpacing: real, sheetWidth: real, overlap: real, k: int)
    requires InputsValid(length, maxSpacing, sheetWidth, overlap)
    requires k >= 1
    ensures length / k as real <= maxSpacing <==> k >= Estimate(length, maxSpacing, sheetWidth, overlap).numSpans
  {
    CeilQuotientLeast(length, maxSpacing, k);
    assert length / k as real * k as real == length;
    if length / k as real <= maxSpacing {
      MulMono(length / k as real, maxSpacing, k as real);
    } else {
      MulStrict(maxSpacing, length / k as real, k as real);
    }
  }

  /** The sheet count is the least that covers the run: `k` sheets of the
      overlap-reduced width cover the length exactly when `k` is at least
      the estimated sheet count. */
  lemma {:induction false} SheetsLeast(length: real, maxSpacing: real, sheetWidth: real, overlap: real, k: int)
    requires InputsValid(length, maxSpacing, sheetWidth, overlap)
    ensures k as real * (sheetWidth - overlap) >= length <==> k >= Estimate(length, maxSpacing, sheetWidth, overlap).totalSheets
  {
    CeilQuotientLeast(length, sheetWidth - overlap, k);
  }

  /** The first worked example: a 10 m run, 2.5 m spacing, 1.2 m sheets with
      0.05 m overlap needs 4 spans, 5 posts, 2.5 m spacing and 9 sheets. */
  lemma ExampleTenMetres()
    ensures Estimate(10.0, 2.5, 1.2, 0.05) == Materials(5, 4, 9, 2.5)
  {
  }

  /** The second worked example: a 7 m run at 2.5 m spacing needs 3 spans
      spaced 7/3 m apart, below the maximum. */
  lemma ExampleSevenMetres()
    ensures Estimate(7.0, 2.5, 1.2, 0.05).numSpans == 3
    ensures Estimate(7.0, 2.5, 1.2, 0.05).actualSpacing == 7.0 / 3.0 < 2.5
  {
  }
}
