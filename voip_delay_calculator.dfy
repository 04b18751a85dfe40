/**
 * End-to-end VoIP delay of one packet: the time from the start of its
 * analog-to-digital conversion to the start of its de-conversion at the
 * receiving host, as the sum of conversion, transmission and propagation
 * delay. Every quantity is an exact real; the unit conversions (bytes to
 * bits, Kbps and Mbps to bps, km to metres, seconds to milliseconds) are
 * written out as named constants.
 */
module VoipDelayCalculator {
  import opened Power

  const BITS_PER_BYTE: real := 8.0
  const BPS_PER_KBPS: real := 1000.0
  const BPS_PER_MBPS: real := 1000.0 * 1000.0
  const METRES_PER_KM: real := 1000.0
  const MS_PER_SECOND: real := 1000.0

  /** A propagation speed in metres per second, given in scientific notation
      as significantDigits * 10^exponent (2.5 and 8 for 2.5 * 10^8 m/s). */
  datatype PropagationSpeed = PropagationSpeed(significantDigits: real, exponent: int)

  /** Everything the end-to-end calculation is given about the codec, the link and the packet. */
  datatype VoipParameters = VoipParameters(
    conversionRateKbps: real,
    linkTransmissionRateMbps: real,
    packetLengthBytes: real,
    propagationDistanceKm: real,
    propagationSpeed: PropagationSpeed)

  /** The speed rebuilt from its scientific notation, in metres per second.
      Its sign is that of the significant digits, whatever the exponent, so it
      is a usable divisor exactly when the significant digits are not zero. */
  function SpeedMetresPerSecond(speed: PropagationSpeed): (r: real)
    ensures r > 0.0 <==> speed.significantDigits > 0.0
    ensures r == 0.0 <==> speed.significantDigits == 0.0
  {
    Pow10Positive(speed.exponent);
    speed.significantDigits * Pow10(speed.exponent)
  }

  /** Seconds needed to put a packet of `lengthInBytes` bytes on a link of
      `rateInMbps` megabits per second. */
  function TransmissionTimeSeconds(lengthInBytes: real, rateInMbps: real): (r: real)
    requires rateInMbps != 0.0
    ensures r * (rateInMbps * BPS_PER_MBPS) == lengthInBytes * BITS_PER_BYTE
    ensures r > 0.0 <==> lengthInBytes * rateInMbps > 0.0
    ensures r == 0.0 <==> lengthInBytes == 0.0
  {
    var packetLengthBits := lengthInBytes * BITS_PER_BYTE;
    var rateBps := rateInMbps * BPS_PER_MBPS;
    packetLengthBits / rateBps
  }

  /** Seconds a signal needs to cover `distanceKm` kilometres at `speed`. */
  function PropagationDelaySeconds(distanceKm: real, speed: PropagationSpeed): (r: real)
    requires speed.significantDigits != 0.0
    ensures r * SpeedMetresPerSecond(speed) == distanceKm * METRES_PER_KM
    ensures r > 0.0 <==> distanceKm * speed.significantDigits > 0.0
    ensures r == 0.0 <==> distanceKm == 0.0
  {
    var distanceMetres := distanceKm * METRES_PER_KM;
    var speedMps := SpeedMetresPerSecond(speed);
    distanceMetres / speedMps
  }

  /** Seconds the codec needs to produce a packet of `packetLengthBytes`
      bytes at `conversionRateKbps` kilobits per second. */
  function ConversionDelaySeconds(packetLengthBytes: real, conversionRateKbps: real): (r: real)
    requires conversionRateKbps != 0.0
    ensures r * (conversionRateKbps * BPS_PER_KBPS) == packetLengthBytes * BITS_PER_BYTE
    ensures r > 0.0 <==> packetLengthBytes * conversionRateKbps > 0.0
    ensures r == 0.0 <==> packetLengthBytes == 0.0
  {
    var conversionRateBps := conversionRateKbps * BPS_PER_KBPS;
    var packetLengthBits := packetLengthBytes * BITS_PER_BYTE;
    packetLengthBits / conversionRateBps
  }

  /** No divisor of the calculation is zero: the link rate in bps, the
      rebuilt speed and the codec rate in bps are all non-zero. */
  predicate Computable(p: VoipParameters): (r: bool)
    ensures r <==> && p.conversionRateKbps * BPS_PER_KBPS != 0.0
                   && p.linkTransmissionRateMbps * BPS_PER_MBPS != 0.0
                   && SpeedMetresPerSecond(p.propagationSpeed) != 0.0
  {
    && p.conversionRateKbps != 0.0
    && p.linkTransmissionRateMbps != 0.0
    && p.propagationSpeed.significantDigits != 0.0
  }

  /** The ranges the parameters have physically: positive rates, packet
      length and speed, and a distance that is not negative. */
  predicate Physical(p: VoipParameters) {
    && p.conversionRateKbps > 0.0
    && p.linkTransmissionRateMbps > 0.0
    && p.packetLengthBytes > 0.0
    && p.propagationDistanceKm >= 0.0
    && p.propagationSpeed.significantDigits > 0.0
  }

  /** End-to-end delay of one packet in milliseconds: conversion, then
      transmission, then propagation, with no overlap between them. */
  function EndToEndVoipDelayMs(p: VoipParameters): (r: real)
    requires Computable(p)
    ensures Physical(p) ==> r > 0.0
    ensures Physical(p) ==> r >= MS_PER_SECOND * ConversionDelaySeconds(p.packetLengthBytes, p.conversionRateKbps)
    ensures Physical(p) ==> r >= MS_PER_SECOND * TransmissionTimeSeconds(p.packetLengthBytes, p.linkTransmissionRateMbps)
    ensures Physical(p) ==> r >= MS_PER_SECOND * PropagationDelaySeconds(p.propagationDistanceKm, p.propagationSpeed)
  {
    var propagationDelaySeconds := PropagationDelaySeconds(p.propagationDistanceKm, p.propagationSpeed);
    var transmissionDelaySeconds := TransmissionTimeSeconds(p.packetLengthBytes, p.linkTransmissionRateMbps);
    var conversionDelaySeconds := ConversionDelaySeconds(p.packetLengthBytes, p.conversionRateKbps);
    var voipDelaySeconds := conversionDelaySeconds + transmissionDelaySeconds + propagationDelaySeconds;
    voipDelaySeconds * MS_PER_SECOND
  }

  /** The same speed written with its decimal point moved: `n` places of
      exponent traded for a factor 10^n in the significant digits. */
  function ShiftExponent(speed: PropagationSpeed, n: int): PropagationSpeed {
    PropagationSpeed(speed.significantDigits * Pow10(n), speed.exponent - n)
  }

  /** Moving the decimal point does not change the speed (2.5 * 10^8 and
      250000000 * 10^0 are one speed). */
  lemma SpeedShiftExponent(speed: PropagationSpeed, n: int)
    ensures SpeedMetresPerSecond(ShiftExponent(speed, n)) == SpeedMetresPerSecond(speed)
  {
    var shifted := ShiftExponent(speed, n);
    assert SpeedMetresPerSecond(shifted) == shifted.significantDigits * Pow10(shifted.exponent);
    Pow10Shift(speed.significantDigits, speed.exponent, n);
  }

  /** Nor the propagation delay over any distance. */
  lemma PropagationShiftExponent(distanceKm: real, speed: PropagationSpeed, n: int)
    requires speed.significantDigits != 0.0
    ensures ShiftExponent(speed, n).significantDigits != 0.0
    ensures PropagationDelaySeconds(distanceKm, ShiftExponent(speed, n)) == PropagationDelaySeconds(distanceKm, speed)
  {
    SpeedShiftExponent(speed, n);
  }

  /** Scaling the distance and the significant digits of the speed by the
      same non-zero factor leaves the propagation delay unchanged. */
  lemma PropagationScaleInvariant(distanceKm: real, speed: PropagationSpeed, k: real)
    requires speed.significantDigits != 0.0 && k != 0.0
    ensures k * speed.significantDigits != 0.0
    ensures PropagationDelaySeconds(k * distanceKm, PropagationSpeed(k * speed.significantDigits, speed.exponent))
         == PropagationDelaySeconds(distanceKm, speed)
  {
  }

  /** The total in milliseconds computed term by term from the raw inputs,
      each term already in milliseconds: bits over kilobits per second, bits
      over thousands of megabits per second, and millimetres over metres per second. */
  lemma EndToEndClosedForm(p: VoipParameters)
    requires Computable(p)
    ensures EndToEndVoipDelayMs(p)
         == p.packetLengthBytes * BITS_PER_BYTE / p.conversionRateKbps
          + p.packetLengthBytes * BITS_PER_BYTE / (p.linkTransmissionRateMbps * 1000.0)
          + p.propagationDistanceKm * 1000000.0 / SpeedMetresPerSecond(p.propagationSpeed)
  {
    ConversionDelayMs(p.packetLengthBytes, p.conversionRateKbps);
    TransmissionTimeMs(p.packetLengthBytes, p.linkTransmissionRateMbps);
    PropagationDelayMs(p.propagationDistanceKm, p.propagationSpeed);
  }

  /** Conversion delay in milliseconds: bits over kilobits per second. */
  lemma ConversionDelayMs(packetLengthBytes: real, conversionRateKbps: real)
    requires conversionRateKbps != 0.0
    ensures MS_PER_SECOND * ConversionDelaySeconds(packetLengthBytes, conversionRateKbps)
         == packetLengthBytes * BITS_PER_BYTE / conversionRateKbps
  {
  }

  /** Transmission delay in milliseconds: bits over thousands of megabits per second. */
  lemma TransmissionTimeMs(lengthInBytes: real, rateInMbps: real)
    requires rateInMbps != 0.0
    ensures MS_PER_SECOND * TransmissionTimeSeconds(lengthInBytes, rateInMbps)
         == lengthInBytes * BITS_PER_BYTE / (rateInMbps * 1000.0)
  {
  }

  /** Propagation delay in milliseconds: millimetres over metres per second. */
  lemma PropagationDelayMs(distanceKm: real, speed: PropagationSpeed)
    requires speed.significantDigits != 0.0
    ensures MS_PER_SECOND * PropagationDelaySeconds(distanceKm, speed)
         == distanceKm * 1000000.0 / SpeedMetresPerSecond(speed)
  {
  }

  /** A longer packet takes strictly longer to convert and to transmit. */
  lemma EndToEndIncreasesWithPacketLength(p: VoipParameters, longer: real)
    requires Computable(p) && p.conversionRateKbps > 0.0 && p.linkTransmissionRateMbps > 0.0
    requires p.packetLengthBytes < longer
    ensures EndToEndVoipDelayMs(p) < EndToEndVoipDelayMs(p.(packetLengthBytes := longer))
  {
    QuotientIncreases(p.packetLengthBytes * BITS_PER_BYTE, longer * BITS_PER_BYTE,
                      p.conversionRateKbps * BPS_PER_KBPS);
    QuotientIncreases(p.packetLengthBytes * BITS_PER_BYTE, longer * BITS_PER_BYTE,
                      p.linkTransmissionRateMbps * BPS_PER_MBPS);
  }

  /** A faster link transmits a packet strictly sooner. */
  lemma EndToEndDecreasesWithLinkRate(p: VoipParameters, faster: real)
    requires Computable(p) && p.packetLengthBytes > 0.0
    requires 0.0 < p.linkTransmissionRateMbps < faster
    ensures EndToEndVoipDelayMs(p.(linkTransmissionRateMbps := faster)) < EndToEndVoipDelayMs(p)
  {
  }

  /** A faster codec converts a packet strictly sooner. */
  lemma EndToEndDecreasesWithConversionRate(p: VoipParameters, faster: real)
    requires Computable(p) && p.packetLengthBytes > 0.0
    requires 0.0 < p.conversionRateKbps < faster
    ensures EndToEndVoipDelayMs(p.(conversionRateKbps := faster)) < EndToEndVoipDelayMs(p)
  {
  }

  /** At a positive speed, a longer link never shortens the delay, and
      strictly lengthens it when the distance strictly grows. */
  lemma EndToEndIncreasesWithDistance(p: VoipParameters, farther: real)
    requires Computable(p) && p.propagationSpeed.significantDigits > 0.0
    requires p.propagationDistanceKm <= farther
    ensures EndToEndVoipDelayMs(p) <= EndToEndVoipDelayMs(p.(propagationDistanceKm := farther))
    ensures p.propagationDistanceKm < farther
        ==> EndToEndVoipDelayMs(p) < EndToEndVoipDelayMs(p.(propagationDistanceKm := farther))
  {
    if p.propagationDistanceKm < farther {
      QuotientIncreases(p.propagationDistanceKm * METRES_PER_KM, farther * METRES_PER_KM,
                        SpeedMetresPerSecond(p.propagationSpeed));
    }
  }

  /** A larger numerator over the same positive divisor gives a larger quotient. */
  lemma QuotientIncreases(a: real, b: real, d: real)
    requires d > 0.0 && a < b
    ensures a / d < b / d
  {
  }

  /** The example parameters: a 65 Kbps codec, a 1.8 Mbps link, 65-byte
      packets and 712.7 km at 2.5 * 10^8 m/s. */
  const DEMO_PARAMETERS: VoipParameters :=
    VoipParameters(65.0, 1.8, 65.0, 712.7, PropagationSpeed(2.5, 8))

  /** The example in exact arithmetic: 8 ms of conversion, 13/45 ms of
      transmission and 2.8508 ms of propagation, about 11.1397 ms in all. */
  lemma DemoEndToEndDelay()
    ensures SpeedMetresPerSecond(DEMO_PARAMETERS.propagationSpeed) == 250000000.0
    ensures ConversionDelaySeconds(DEMO_PARAMETERS.packetLengthBytes, DEMO_PARAMETERS.conversionRateKbps) == 0.008
    ensures TransmissionTimeSeconds(DEMO_PARAMETERS.packetLengthBytes, DEMO_PARAMETERS.linkTransmissionRateMbps)
         == 13.0 / 45000.0
    ensures PropagationDelaySeconds(DEMO_PARAMETERS.propagationDistanceKm, DEMO_PARAMETERS.propagationSpeed)
         == 0.0028508
    ensures EndToEndVoipDelayMs(DEMO_PARAMETERS) == 8.0 + 13.0 / 45.0 + 2.8508
  {
  }
}
