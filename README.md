# End-to-end VoIP delay calculator, modelled in Dafny

The calculator computes the one-way delay of a single VoIP packet, from the
start of its analog-to-digital conversion to the start of its de-conversion at
the receiving host. The delay is the sum of three closed-form terms, converted
from seconds to milliseconds:

- conversion delay: packet bits over the codec rate (Kbps × 1000);
- transmission delay: packet bits (bytes × 8) over the link rate (Mbps × 1000 × 1000);
- propagation delay: distance (km × 1000) over the propagation speed. The speed
  is given in scientific notation as a pair of significant digits and an
  exponent, and rebuilt as `significant_digits × 10^exponent` m/s.

The model has two modules:

- `Power` (`power.dfy`) defines `Pow10`, ten raised to any integer exponent.
  This is Python's `10 ** exponent` for an integer exponent, a fraction when
  the exponent is negative. The module also proves the exponent laws the
  scientific-notation speed relies on.
- `VoipDelayCalculator` (`voip_delay_calculator.dfy`) models the three Python
  functions as Dafny functions over exact `real`s. The two dictionaries become
  the datatypes `PropagationSpeed` and `VoipParameters`, and every unit
  conversion is a named constant.

Python raises `ZeroDivisionError` when a divisor is zero. Each division
therefore has a precondition that its divisor is non-zero, and nothing more:
negative inputs are accepted, just as in the source. Facts that need the
physical ranges (positive rates, packet length and speed, non-negative
distance) take those ranges as hypotheses. `Physical` collects them for the
end-to-end delay.

For the example inputs of the script's `__main__` block (65 Kbps, 1.8 Mbps,
65 bytes, 712.7 km, 2.5 × 10^8 m/s), exact arithmetic gives:

- conversion: 0.008 s;
- transmission: 13/45000 s;
- propagation: 0.0028508 s;
- total: 8 + 13/45 + 2.8508 ms, about 11.1397 ms.

## Model

| member | source | states |
|---|---|---|
| `Power.Pow10` | VoipDelayCalculator.py:40 | `10 ** exponent` for an integer exponent, as ten times the previous power above zero and a tenth of the next one below zero; it has no contract of its own, and its laws are stated by `Power.Pow10Succ`, `Power.Pow10Add` and `Power.Pow10Neg` |
| `Power.Pow10Positive` | VoipDelayCalculator.py:39-41 | every power of ten `10 ** exponent` is strictly positive, for every integer exponent, negative ones included |
| `Power.Pow10Succ` | VoipDelayCalculator.py:40 | raising the exponent by one multiplies the power by ten, on both sides of zero (with `Pow10(0) == 1` this pins `Pow10` down as the power of ten) |
| `Power.Pow10Add` | VoipDelayCalculator.py:40 | `10^(a+b) == 10^a × 10^b` for all integers a and b |
| `Power.Pow10Neg` | VoipDelayCalculator.py:40 | a negative exponent gives the reciprocal: `10^(-e) == 1 / 10^e` |
| `Power.Pow10Shift` | VoipDelayCalculator.py:39-41 | moving n factors of ten from the exponent into the coefficient keeps the value: `(s × 10^n) × 10^(e-n) == s × 10^e` |
| `VoipDelayCalculator.SpeedMetresPerSecond` | VoipDelayCalculator.py:38-41 | the rebuilt speed has the sign of the significant digits whatever the exponent: positive exactly when they are positive, zero exactly when they are zero (so the division at line 42 is defined exactly when they are non-zero) |
| `VoipDelayCalculator.TransmissionTimeSeconds` | VoipDelayCalculator.py:6-23 | for any non-zero rate, the result times the rate in bps (Mbps × 1000 × 1000) is the packet length in bits (bytes × 8); it is positive exactly when length and rate have the same sign, and zero exactly when the length is zero |
| `VoipDelayCalculator.PropagationDelaySeconds` | VoipDelayCalculator.py:26-44 | for non-zero significant digits, the result times the rebuilt speed is the distance in metres (km × 1000); it is positive exactly when distance and speed have the same sign, and exactly zero when the distance is zero |
| `VoipDelayCalculator.ConversionDelaySeconds` | VoipDelayCalculator.py:63-79 | for a non-zero codec rate, the result times the codec rate in bps (Kbps × 1000) is the packet length in bits; it is positive exactly when length and rate have the same sign, and zero exactly when the length is zero |
| `VoipDelayCalculator.Computable` | VoipDelayCalculator.py:21-79 | holds exactly when none of the three divisors is zero: the link rate in bps (line 21), the rebuilt speed (line 42) and the codec rate in bps (line 79), i.e. exactly when none of the three divisions raises `ZeroDivisionError` |
| `VoipDelayCalculator.EndToEndVoipDelayMs` | VoipDelayCalculator.py:47-87 | under physical ranges the delay in ms is strictly positive and is at least 1000 × each of its three components (conversion, transmission, propagation) |
| `VoipDelayCalculator.EndToEndClosedForm` | VoipDelayCalculator.py:63-87 | the total equals an independent closed form, term by term in ms: bits / Kbps + bits / (Mbps × 1000) + km × 10^6 / speed |
| `VoipDelayCalculator.ConversionDelayMs` | VoipDelayCalculator.py:78-85 | conversion delay in ms is bits over Kbps |
| `VoipDelayCalculator.TransmissionTimeMs` | VoipDelayCalculator.py:75-85 | transmission delay in ms is bits over Mbps × 1000 |
| `VoipDelayCalculator.PropagationDelayMs` | VoipDelayCalculator.py:70-85 | propagation delay in ms is km × 10^6 over the speed in m/s |
| `VoipDelayCalculator.SpeedShiftExponent` | VoipDelayCalculator.py:38-41 | two notations of one speed, `s × 10^e` and `(s × 10^n) × 10^(e-n)`, are rebuilt to the same speed for every integer n (2.5 × 10^8 and 250000000 × 10^0 alike) |
| `VoipDelayCalculator.PropagationShiftExponent` | VoipDelayCalculator.py:36-42 | so the propagation delay over any distance does not depend on which notation the speed is written in |
| `VoipDelayCalculator.PropagationScaleInvariant` | VoipDelayCalculator.py:36-42 | scaling the distance and the significant digits by the same non-zero factor k leaves the propagation delay unchanged |
| `VoipDelayCalculator.EndToEndIncreasesWithPacketLength` | VoipDelayCalculator.py:63-82 | with positive codec and link rates, a strictly longer packet gives a strictly larger end-to-end delay, other inputs fixed |
| `VoipDelayCalculator.EndToEndDecreasesWithLinkRate` | VoipDelayCalculator.py:63-82 | with a positive packet length, a strictly faster (positive) link gives a strictly smaller end-to-end delay |
| `VoipDelayCalculator.EndToEndDecreasesWithConversionRate` | VoipDelayCalculator.py:63-82 | with a positive packet length, a strictly faster (positive) codec gives a strictly smaller end-to-end delay |
| `VoipDelayCalculator.EndToEndIncreasesWithDistance` | VoipDelayCalculator.py:63-82 | at a positive speed, a longer distance never lowers the end-to-end delay, and a strictly longer one strictly raises it |
| `VoipDelayCalculator.DemoEndToEndDelay` | VoipDelayCalculator.py:92-102 | for the example inputs: the speed is 250000000 m/s, conversion is 0.008 s, transmission is 13/45000 s, propagation is 0.0028508 s, and the total is exactly 8 + 13/45 + 2.8508 ms |

## Left out

- The `__main__` block (VoipDelayCalculator.py:90-103): it prints to the console. Its literal inputs appear only as `DEMO_PARAMETERS` in `DemoEndToEndDelay`.
- IEEE-754 rounding of Python `float`s: the model works in exact reals, so it does not capture rounding, overflow to infinity, the `OverflowError` that lines 39-40 raise when a float significand meets an exponent of 309 or more (the integer `10 ** exponent` is too large to convert to a float), or a tiny speed underflowing to zero.
- The `ZeroDivisionError` that Python raises for a zero rate or a zero speed: each function requires its divisor to be non-zero. The exceptional path is not modelled as a value.
- Non-integer exponents: the docstring at VoipDelayCalculator.py:58 allows a float exponent, but `10 ** float` is a real power with no finite definition here. `exponent` is an `int`.
- Python's int/float distinction for the other inputs (VoipDelayCalculator.py:6, 26, 53-58): every quantity is a `real`. Python's `/` always performs true division, so nothing depends on that distinction.
- Lookups of missing dictionary keys (a `KeyError` in Python): the record types make every field present.
