/**
 * The epoch estimator of `fetchEpochStatus` (everything after the two RPC
 * results arrive) and the `formatHMS` countdown formatter.
 */
module Epoch {
  import opened Wrappers
  import opened Decimal

  /** The fallback duration of one slot, in seconds, used without usable samples. */
  const FallbackSecsPerSlot: real := 0.4

  /** The part of `getEpochInfo`'s answer that the estimator reads. */
  datatype EpochInfo = EpochInfo(epoch: int, slotIndex: int, slotsInEpoch: int)

  /** One entry of `getRecentPerformanceSamples`; either field may be missing. */
  datatype PerfSample = PerfSample(numSlots: Option<int>, samplePeriodSecs: Option<int>)

  datatype EpochStatus = EpochStatus(
    epoch: int,
    slotIndex: int,
    slotsInEpoch: int,
    secsPerSlot: real,
    etaSeconds: int)

  /** `x ?? 0` on an optional number. */
  function OrZero(x: Option<int>): int {
    if x.Some? then x.value else 0
  }

  /** The `reduce` that sums `numSlots` (a missing field counts as 0). */
  function TotalSlots(samples: seq<PerfSample>): int {
    if samples == [] then 0
    else TotalSlots(samples[..|samples| - 1]) + OrZero(samples[|samples| - 1].numSlots)
  }

  /** The `reduce` that sums `samplePeriodSecs` (a missing field counts as 0). */
  function TotalSecs(samples: seq<PerfSample>): int {
    if samples == [] then 0
    else TotalSecs(samples[..|samples| - 1]) + OrZero(samples[|samples| - 1].samplePeriodSecs)
  }

  /**
   * The sums split over any cut of the sample list, so a sample counts
   * once, wherever it sits, with a missing field counted as 0.
   */
  lemma {:induction false} TotalsAppend(a: seq<PerfSample>, b: seq<PerfSample>)
    ensures TotalSlots(a + b) == TotalSlots(a) + TotalSlots(b)
    ensures TotalSecs(a + b) == TotalSecs(a) + TotalSecs(b)
    decreases |b|
  {
    if b == [] {
      assert a + b == a;
    } else {
      var c := b[..|b| - 1];
      assert (a + b)[..|a + b| - 1] == a + c;
      assert (a + b)[|a + b| - 1] == b[|b| - 1];
      TotalsAppend(a, c);
    }
  }

  /** One sample contributes its fields, a missing field counted as 0. */
  lemma TotalsOfOne(s: PerfSample)
    ensures TotalSlots([s]) == OrZero(s.numSlots) && TotalSecs([s]) == OrZero(s.samplePeriodSecs)
  {
    assert [s][..0] == [];
  }

  /**
   * The average slot duration: the summed sample period over the summed slot
   * count when both sums are positive, the fallback otherwise.
   */
  function SecsPerSlot(samples: seq<PerfSample>): (r: real)
    ensures r > 0.0
    ensures samples == [] ==> r == FallbackSecsPerSlot
    ensures TotalSlots(samples) <= 0 || TotalSecs(samples) <= 0 ==> r == FallbackSecsPerSlot
    ensures TotalSlots(samples) > 0 && TotalSecs(samples) > 0 ==>
              r * (TotalSlots(samples) as real) == TotalSecs(samples) as real
  {
    var secsPerSlot := FallbackSecsPerSlot;
    if |samples| > 0 then
      var totalSlots := TotalSlots(samples);
      var totalSecs := TotalSecs(samples);
      if totalSlots > 0 && totalSecs > 0 then totalSecs as real / totalSlots as real
      else secsPerSlot
    else secsPerSlot
  }

  /** `Math.max(0, slotsInEpoch - slotIndex)`. */
  function RemainingSlots(slotsInEpoch: int, slotIndex: int): (r: int)
    ensures r >= 0
    ensures r == 0 <==> slotIndex >= slotsInEpoch
    ensures slotIndex < slotsInEpoch ==> r == slotsInEpoch - slotIndex
  {
    if slotsInEpoch - slotIndex > 0 then slotsInEpoch - slotIndex else 0
  }

  /** `Math.round` on a real: the nearest integer, halves rounded up. */
  function Round(x: real): (r: int)
    ensures r as real - 0.5 <= x < r as real + 0.5
  {
    (x + 0.5).Floor
  }

  /** `Math.round(remainingSlots * secsPerSlot)`. */
  function EtaSeconds(remainingSlots: int, secsPerSlot: real): (r: int)
    ensures remainingSlots >= 0 && secsPerSlot > 0.0 ==> r >= 0
    ensures remainingSlots == 0 ==> r == 0
  {
    Round(remainingSlots as real * secsPerSlot)
  }

  /** The status that `fetchEpochStatus` resolves to, given the two RPC answers. */
  function EstimateStatus(info: EpochInfo, samples: seq<PerfSample>): (r: EpochStatus)
    ensures r.epoch == info.epoch && r.slotIndex == info.slotIndex
    ensures r.slotsInEpoch == info.slotsInEpoch
    ensures r.secsPerSlot == SecsPerSlot(samples)
    ensures r.etaSeconds >= 0
    ensures info.slotIndex >= info.slotsInEpoch ==> r.etaSeconds == 0
    ensures var exact := RemainingSlots(info.slotsInEpoch, info.slotIndex) as real * r.secsPerSlot;
            r.etaSeconds as real - 0.5 <= exact < r.etaSeconds as real + 0.5
  {
    var secsPerSlot := SecsPerSlot(samples);
    var remainingSlots := RemainingSlots(info.slotsInEpoch, info.slotIndex);
    EpochStatus(info.epoch, info.slotIndex, info.slotsInEpoch, secsPerSlot,
                EtaSeconds(remainingSlots, secsPerSlot))
  }

  /** With no samples the estimate falls back to 0.4 s per slot. */
  lemma EstimateWithoutSamples(info: EpochInfo)
    ensures EstimateStatus(info, []).secsPerSlot == 0.4
    ensures EstimateStatus(info, []).etaSeconds
            == Round(RemainingSlots(info.slotsInEpoch, info.slotIndex) as real * 0.4)
  {
  }

  /** Two samples of 150 slots over 60 s each make 0.4 s per slot: 1000 slots left is 400 s. */
  lemma EstimateExample()
    ensures var samples := [PerfSample(Some(150), Some(60)), PerfSample(Some(150), Some(60))];
            var r := EstimateStatus(EpochInfo(700, 431000, 432000), samples);
            r.secsPerSlot == 0.4 && r.etaSeconds == 400
  {
    var samples := [PerfSample(Some(150), Some(60)), PerfSample(Some(150), Some(60))];
    assert samples[..1] == [samples[0]];
    assert TotalSlots(samples) == 300;
    assert TotalSecs(samples) == 120;
  }

  // ----- formatHMS -----

  /** Quotient and remainder by 60 are unique. */
  lemma DivModSixty(s: int, q: int, r: int)
    requires 0 <= r < 60 && s == q * 60 + r
    ensures s / 60 == q && s % 60 == r
  {
  }

  /** Hours, then minutes of the rest, then `s % 60`, add back up to `s`. */
  lemma SplitHMSSum(s: nat)
    ensures (s / 3600) * 3600 + ((s % 3600) / 60) * 60 + s % 60 == s
  {
    var q, r := s / 3600, s % 3600;
    var m, t := r / 60, r % 60;
    assert s == q * 3600 + r;
    assert r == m * 60 + t;
    assert s == (q * 60 + m) * 60 + t;
    DivModSixty(s, q * 60 + m, t);
  }

  /** The hour, minute and second fields of `formatHMS`, after clamping at 0. */
  function SplitHMS(totalSeconds: int): (r: (nat, nat, nat))
    ensures var s := if totalSeconds > 0 then totalSeconds else 0;
            r.0 * 3600 + r.1 * 60 + r.2 == s
    ensures r.1 < 60 && r.2 < 60
  {
    var s := if totalSeconds > 0 then totalSeconds else 0;
    SplitHMSSum(s);
    (s / 3600, (s % 3600) / 60, s % 60)
  }

  /** `formatHMS`: "h:mm:ss" when there is at least one hour, "m:ss" otherwise. */
  function FormatHMS(totalSeconds: int): string {
    var (hh, mm, ss) := SplitHMS(totalSeconds);
    if hh > 0 then NatToString(hh) + ":" + Pad2(mm) + ":" + Pad2(ss)
    else NatToString(mm) + ":" + Pad2(ss)
  }

  /** The ':'-separated fields of a string. */
  function Fields(s: string): (r: seq<string>)
    ensures |r| >= 1
  {
    if s == [] then [""]
    else if s[0] == ':' then [""] + Fields(s[1..])
    else var f := Fields(s[1..]); [[s[0]] + f[0]] + f[1..]
  }

  lemma {:induction false} FieldsOfJoin(a: string, b: string)
    requires AllDigits(a)
    ensures Fields(a + ":" + b) == [a] + Fields(b)
    decreases |a|
  {
    if a == [] {
      assert (a + ":" + b)[1..] == b;
    } else {
      var s := a + ":" + b;
      assert s[0] == a[0] && IsDigit(a[0]);
      assert s[1..] == a[1..] + ":" + b;
      FieldsOfJoin(a[1..], b);
      assert [a[0]] + a[1..] == a;
    }
  }

  lemma {:induction false} FieldsOfDigits(a: string)
    requires AllDigits(a)
    ensures Fields(a) == [a]
    decreases |a|
  {
    if a != [] {
      assert IsDigit(a[0]);
      FieldsOfDigits(a[1..]);
      assert [a[0]] + a[1..] == a;
    }
  }

  /** Reads a "h:mm:ss" or "m:ss" string back into a number of seconds. */
  function ParseHMS(s: string): Option<int> {
    var f := Fields(s);
    if |f| == 3 && AllDigits(f[0]) && AllDigits(f[1]) && AllDigits(f[2]) then
      Some(DigitsValue(f[0]) * 3600 + DigitsValue(f[1]) * 60 + DigitsValue(f[2]))
    else if |f| == 2 && AllDigits(f[0]) && AllDigits(f[1]) then
      Some(DigitsValue(f[0]) * 60 + DigitsValue(f[1]))
    else None
  }

  /** The fields `formatHMS` writes, with the two-digit padding of minutes and seconds. */
  lemma FormatHMSFields(totalSeconds: int)
    ensures var (hh, mm, ss) := SplitHMS(totalSeconds);
            var f := Fields(FormatHMS(totalSeconds));
            && (hh > 0 ==> f == [NatToString(hh), Pad2(mm), Pad2(ss)])
            && (hh == 0 ==> f == [NatToString(mm), Pad2(ss)])
  {
    var (hh, mm, ss) := SplitHMS(totalSeconds);
    FieldsOfDigits(Pad2(ss));
    if hh > 0 {
      FieldsOfJoin(Pad2(mm), Pad2(ss));
      assert NatToString(hh) + ":" + Pad2(mm) + ":" + Pad2(ss)
          == NatToString(hh) + ":" + (Pad2(mm) + ":" + Pad2(ss));
      FieldsOfJoin(NatToString(hh), Pad2(mm) + ":" + Pad2(ss));
    } else {
      FieldsOfJoin(NatToString(mm), Pad2(ss));
    }
  }

  /** The output has three fields ("h:mm:ss") exactly when there is a whole hour. */
  lemma FormatHMSShape(totalSeconds: int)
    ensures var f := Fields(FormatHMS(totalSeconds));
            (|f| == 3 <==> totalSeconds >= 3600) && (|f| == 2 <==> totalSeconds < 3600)
    ensures var f := Fields(FormatHMS(totalSeconds));
            |f[|f| - 1]| == 2 && (|f| == 3 ==> |f[1]| == 2)
  {
    FormatHMSFields(totalSeconds);
  }

  /** Reading the formatted countdown back gives the clamped number of seconds. */
  lemma FormatHMSRoundTrip(totalSeconds: int)
    ensures ParseHMS(FormatHMS(totalSeconds)) == Some(if totalSeconds > 0 then totalSeconds else 0)
  {
    var (hh, mm, ss) := SplitHMS(totalSeconds);
    FormatHMSFields(totalSeconds);
    DigitsValueOfNatToString(hh);
    DigitsValueOfNatToString(mm);
  }

  lemma FormatHMSExamples()
    ensures FormatHMS(0) == "0:00"
    ensures FormatHMS(-42) == "0:00"
    ensures FormatHMS(65) == "1:05"
    ensures FormatHMS(3661) == "1:01:01"
  {
  }
}
