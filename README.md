# Fence material calculator

A model of the estimator behind a corrugated-sheet fence calculator. Given a
run length, a maximum post spacing, a sheet width and a sheet overlap (all in
metres), the calculator first validates the four numbers against five rules
checked in a fixed order. It then estimates the materials:

- the number of spans, by rounding length / maximum spacing up;
- the actual spacing, with the run spread evenly over those spans;
- the number of posts, one more than the number of spans;
- the number of sheets, by rounding length / (sheet width − overlap) up.

`calculator.dfy` holds two modules:

- `Rounding` defines `Ceil` over exact reals by way of `Floor`, with the
  bounds that make a rounded-up quotient the least count that covers a length.
- `Calculator` holds the validator and the estimator:
  - `Validate` returns `Valid` or `Invalid(reason)`, where `reason` names one
    of the five rules.
  - `ValidateInputs` gives the same answer in the source's own shape, a flag
    and an optional message, using the source's message strings.
  - `Estimate` returns the four counts in the order of the source's result
    tuple.

Both operations are pure functions. Calling either one twice with the same
inputs gives the same result by construction.

## Model

| member | source | states |
|---|---|---|
| Rounding.Ceil | calculator.py:21 | the rounded-up value `c` of `x` satisfies `c - 1 < x <= c`, as `math.ceil` does |
| Rounding.CeilQuotient | calculator.py:21 | for positive `a`, `b`: `Ceil(a / b) >= 1` and `(Ceil(a / b) - 1) * b < a <= Ceil(a / b) * b` |
| Rounding.CeilQuotientLeast | calculator.py:28 | `k * b >= a` holds exactly when `k >= Ceil(a / b)`, so the rounded-up quotient is the least count of `b`-sized pieces that covers `a` |
| Calculator.Message | calculator.py:7-15 | every rejection reason has a non-empty message |
| Calculator.MessageInjective | calculator.py:7-15 | different rules report different messages |
| Calculator.Validate | calculator.py:6-16 | the result is `Valid` exactly when `length > 0`, `max spacing > 0`, `sheet width > 0` and `0 <= overlap < sheet width`; a reported reason is a rule that really fails |
| Calculator.ValidateInputs | calculator.py:4-16 | the flag is true exactly for valid inputs; a valid result carries no message and an invalid one carries a non-empty message |
| Calculator.ValidateReportsFirstFailure | calculator.py:6-15 | the reason reported is `r` exactly when rule `r` fails and no rule checked before it fails (order: length, post spacing, sheet width, negative overlap, overlap not below width); the result is `Valid` exactly when no rule fails |
| Calculator.ValidateInputsReportsFirstFailure | calculator.py:6-16 | the message returned is that of rule `r` exactly when `r` fails and no rule checked before it fails, so the message identifies the first failing rule |
| Calculator.RejectionCases | calculator.py:6-15 | a length of 0 or −5 is reported as the length rule whatever the other inputs are; zero spacing, zero width and overlap −0.01 get their own reasons; overlap equal to the sheet width is rejected by the last rule |
| Calculator.Estimate | calculator.py:18-30 | for valid inputs: `spans >= 1`; `(spans - 1) * max spacing < length <= spans * max spacing`; `actual spacing * spans == length`; `0 < actual spacing <= max spacing`; `posts == spans + 1 >= 2`; `sheets >= 1`; `(sheets - 1) * (width - overlap) < length <= sheets * (width - overlap)` |
| Calculator.SpreadWithin | calculator.py:22 | spreading the length over `n` spans that together reach it keeps each span within the maximum spacing |
| Calculator.SpansLeast | calculator.py:21-22 | for any `k >= 1`, `length / k <= max spacing` holds exactly when `k` is at least the estimated span count, so that count is the least one that keeps the spacing within the maximum |
| Calculator.SheetsLeast | calculator.py:26-28 | `k` sheets of width `width - overlap` cover the length exactly when `k` is at least the estimated sheet count, so that count is the least one that covers the run |
| Calculator.ExampleTenMetres | calculator.py:18-30 | length 10, spacing 2.5, width 1.2, overlap 0.05 give 5 posts, 4 spans, 9 sheets and spacing 2.5 |
| Calculator.ExampleSevenMetres | calculator.py:21-22 | length 7 at spacing 2.5 gives 3 spans with spacing 7/3, below the maximum |

## Left out

- Floating point: quantities are exact reals. Python divides in binary floating point before `math.ceil`, so a quotient that should be exactly an integer can land just above it and round up one extra. The model does not capture this. NaN and infinity are not modelled either. Every comparison with NaN is false, so `validate_inputs` falls through all five guards and accepts a NaN in any argument; the estimator then fails at calculator.py:21 or 28. An infinite length is accepted too and fails the same way. `Calculator.Validate`'s "valid exactly when" contract therefore speaks only of finite inputs.
- Calculator.Estimate: requires valid inputs. In the source, `calculate_fence_materials` does no checking of its own. A zero spacing or zero effective width raises a division error at calculator.py:21 or 28. So does any input whose span count rounds up to 0, such as a length of 0 or −1 at spacing 2.5: `length / num_spans` at calculator.py:22 then divides by zero. Other invalid inputs give meaningless counts. Its only caller validates first (main.py:233-240), so the model states the estimator only on the validated domain.
- The user interface in main.py is not part of this model: input forms, metrics display, the Plotly schematic (main.py:6-99) and the session history with wall-clock timestamps (main.py:101-177).
- The display-only quantities derived in main.py are not modelled. These are cross-bars (2 × spans), post caps (1 per post) and fasteners (10 × sheets). They are plain multipliers of the estimator's outputs.
