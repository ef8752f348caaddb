/**
 * The per-frame signal metrics of `updateMetrics` in the audio service: the
 * dominant frequency bin of a frequency-domain frame, its mapping to hertz,
 * and the integer energy sum behind the volume reading.
 */
module Metrics {

  /** One element of a `Uint8Array` as the analyser fills it. */
  newtype byte = x: int | 0 <= x < 256

  /** The analyser's transform size (`AUDIO_CONFIG.FFT_SIZE`). */
  const FFT_SIZE: nat := 2048

  /** Number of bins in a frame (`analyser.frequencyBinCount`). */
  const BIN_COUNT: nat := FFT_SIZE / 2

  // ---------------------------------------------------------------------------
  // Dominant frequency

  /**
   * Reference definition of the bin the scan picks: the index of the first
   * maximum, where a frame whose every value is 0 (or an empty frame) gives 0.
   * Defined on the prefix without the last bin, which overtakes only when
   * strictly larger.
   */
  function DominantBin(frame: seq<byte>): (i: nat)
    ensures |frame| > 0 ==> i < |frame|
    ensures |frame| == 0 ==> i == 0
    decreases |frame|
  {
    if |frame| <= 1 then 0
    else
      var j := DominantBin(frame[..|frame| - 1]);
      if frame[|frame| - 1] > frame[j] then |frame| - 1 else j
  }

  /** `i` is a first maximum of `frame`: nothing is larger, everything before it is smaller. */
  ghost predicate IsFirstMaximum(frame: seq<byte>, i: nat)
  {
    && i < |frame|
    && (forall j :: 0 <= j < |frame| ==> frame[j] <= frame[i])
    && (forall j :: 0 <= j < i ==> frame[j] < frame[i])
  }

  lemma {:induction false} DominantBinIsFirstMaximum(frame: seq<byte>)
    requires |frame| > 0
    ensures IsFirstMaximum(frame, DominantBin(frame))
    decreases |frame|
  {
    if |frame| > 1 {
      var prefix := frame[..|frame| - 1];
      DominantBinIsFirstMaximum(prefix);
      assert forall j :: 0 <= j < |prefix| ==> prefix[j] == frame[j];
    }
  }

  /** The two conditions of a first maximum pin down a single index. */
  lemma FirstMaximumIsUnique(frame: seq<byte>, i: nat, k: nat)
    requires IsFirstMaximum(frame, i) && IsFirstMaximum(frame, k)
    ensures i == k
  {
    assert frame[i] <= frame[k] && frame[k] <= frame[i];
  }

  /** The reported frequency is 0 Hz exactly when no bin is larger than bin 0. */
  lemma ZeroHzIffBinZeroIsMaximum(frame: seq<byte>, sampleRate: real)
    requires |frame| > 0 && sampleRate > 0.0
    ensures DominantFrequency(frame, sampleRate) == 0.0 <==> forall j :: 0 <= j < |frame| ==> frame[j] <= frame[0]
  {
    DominantBinIsFirstMaximum(frame);
    if forall j :: 0 <= j < |frame| ==> frame[j] <= frame[0] {
      FirstMaximumIsUnique(frame, DominantBin(frame), 0);
    }
  }

  /** A frame of silence (every bin 0) reports bin 0. */
  lemma {:induction false} SilentSpectrumHasBinZero(frame: seq<byte>)
    requires forall j :: 0 <= j < |frame| ==> frame[j] == 0
    ensures DominantBin(frame) == 0
    decreases |frame|
  {
    if |frame| > 1 {
      var prefix := frame[..|frame| - 1];
      assert forall j :: 0 <= j < |prefix| ==> prefix[j] == 0 by {
        forall j | 0 <= j < |prefix| ensures prefix[j] == 0 {
          assert prefix[j] == frame[j];
        }
      }
      SilentSpectrumHasBinZero(prefix);
    }
  }

  /** The frequency in hertz of bin `index`: `index * sampleRate / FFT_SIZE`. */
  function BinFrequency(index: nat, sampleRate: real): (hz: real)
    ensures sampleRate >= 0.0 ==> hz >= 0.0
    ensures sampleRate > 0.0 ==> (hz == 0.0 <==> index == 0)
  {
    (index as real) * sampleRate / (FFT_SIZE as real)
  }

  /** The dominant frequency reported for a frame. */
  function DominantFrequency(frame: seq<byte>, sampleRate: real): (hz: real)
    ensures sampleRate >= 0.0 ==> hz >= 0.0
    ensures sampleRate > 0.0 ==> (hz == 0.0 <==> DominantBin(frame) == 0)
  {
    BinFrequency(DominantBin(frame), sampleRate)
  }

  /** A spectrum with a single non-zero bin `k` reports exactly `k * sampleRate / 2048`. */
  lemma SinglePeakFrequency(frame: seq<byte>, k: nat, sampleRate: real)
    requires k < |frame| && frame[k] > 0
    requires forall j :: 0 <= j < |frame| && j != k ==> frame[j] == 0
    ensures DominantBin(frame) == k
    ensures DominantFrequency(frame, sampleRate) == (k as real) * sampleRate / 2048.0
  {
    DominantBinIsFirstMaximum(frame);
    assert IsFirstMaximum(frame, k);
    FirstMaximumIsUnique(frame, DominantBin(frame), k);
  }

  /** A full frame of `BIN_COUNT` bins reports a frequency below half the sample rate. */
  lemma BelowNyquist(frame: seq<byte>, sampleRate: real)
    requires |frame| == BIN_COUNT && sampleRate > 0.0
    ensures 0.0 <= DominantFrequency(frame, sampleRate) < sampleRate / 2.0
  {
    BinBelowHalfRate(DominantBin(frame), sampleRate);
  }

  lemma BinBelowHalfRate(index: nat, sampleRate: real)
    requires index < BIN_COUNT && sampleRate > 0.0
    ensures BinFrequency(index, sampleRate) < sampleRate / 2.0
  {
    var scaled := (index as real) * sampleRate;
    var gap := 1024.0 - index as real;
    assert gap >= 1.0;
    assert gap * sampleRate >= sampleRate;
    assert scaled == 1024.0 * sampleRate - gap * sampleRate;
    var hz := BinFrequency(index, sampleRate);
    var half := sampleRate / 2.0;
    assert hz * 2048.0 == scaled;
    assert half * 2048.0 == 1024.0 * sampleRate;
  }

  /**
   * The scan of `updateMetrics` over the frequency data: `maxValue` starts at
   * 0 and is overtaken only by a strictly larger value.
   */
  method FindDominantBin(frequencyData: array<byte>) returns (maxIndex: nat)
    ensures maxIndex == DominantBin(frequencyData[..])
    ensures frequencyData.Length == 0 ==> maxIndex == 0
    ensures frequencyData.Length > 0 ==> IsFirstMaximum(frequencyData[..], maxIndex)
  {
    var maxValue: byte := 0;
    maxIndex := 0;
    var i := 0;
    while i < frequencyData.Length
      invariant 0 <= i <= frequencyData.Length
      invariant maxIndex == DominantBin(frequencyData[..i])
      invariant i == 0 ==> maxValue == 0
      invariant i > 0 ==> maxValue == frequencyData[maxIndex]
    {
      assert frequencyData[..i + 1][..i] == frequencyData[..i];
      if frequencyData[i] > maxValue {
        maxValue := frequencyData[i];
        maxIndex := i;
      }
      i := i + 1;
    }
    assert frequencyData[..i] == frequencyData[..];
    if frequencyData.Length > 0 {
      DominantBinIsFirstMaximum(frequencyData[..]);
    }
  }

  // ---------------------------------------------------------------------------
  // Energy

  function Square(x: int): int { x * x }

  /**
   * Reference definition of the energy of a time-domain frame: the sum of
   * `(x - 128)^2`. The source sums `((x - 128) / 128)^2`, which is this sum
   * divided by `128 * 128`.
   */
  function Energy(frame: seq<byte>): (e: int)
    ensures e >= 0
    decreases |frame|
  {
    if |frame| == 0 then 0
    else Energy(frame[..|frame| - 1]) + Square(frame[|frame| - 1] as int - 128)
  }

  /** Only a frame whose every sample sits at the mid-point 128 has no energy. */
  lemma {:induction false} NoEnergyOnlyAtMidpoint(frame: seq<byte>)
    requires Energy(frame) == 0
    ensures forall j :: 0 <= j < |frame| ==> frame[j] == 128
    decreases |frame|
  {
    if |frame| > 0 {
      var prefix := frame[..|frame| - 1];
      var d := frame[|frame| - 1] as int - 128;
      assert Energy(prefix) == 0 && Square(d) == 0;
      assert d == 0;
      NoEnergyOnlyAtMidpoint(prefix);
      assert forall j :: 0 <= j < |prefix| ==> prefix[j] == frame[j];
    }
  }

  /** A frame of samples at the mid-point 128 (silence) has no energy. */
  lemma {:induction false} MidpointFrameHasNoEnergy(frame: seq<byte>)
    requires forall j :: 0 <= j < |frame| ==> frame[j] == 128
    ensures Energy(frame) == 0
    decreases |frame|
  {
    if |frame| > 0 {
      var prefix := frame[..|frame| - 1];
      assert forall j :: 0 <= j < |prefix| ==> prefix[j] == 128 by {
        forall j | 0 <= j < |prefix| ensures prefix[j] == 128 {
          assert prefix[j] == frame[j];
        }
      }
      MidpointFrameHasNoEnergy(prefix);
    }
  }

  /** A deviation of a byte from 128 squares to at most `128^2`. */
  lemma DeviationSquareBound(d: int)
    requires -128 <= d <= 127
    ensures 0 <= Square(d) <= 16384
  {
    if d >= 0 {
      MultiplyBelow(d, d, 128);
    } else {
      assert Square(d) == Square(-d);
      MultiplyBelow(-d, -d, 128);
    }
  }

  /** `a * b <= c * c` when both factors lie in `[0, c]`. */
  lemma MultiplyBelow(a: int, b: int, c: int)
    requires 0 <= a <= c && 0 <= b <= c
    ensures 0 <= a * b <= c * c
  {
    assert a * b <= c * b;
    assert c * b <= c * c;
  }

  /** Each sample contributes at most `128^2`, so the normalised sum never exceeds the frame length. */
  lemma {:induction false} EnergyBounds(frame: seq<byte>)
    ensures 0 <= Energy(frame) <= 16384 * |frame|
    decreases |frame|
  {
    if |frame| > 0 {
      EnergyBounds(frame[..|frame| - 1]);
      DeviationSquareBound(frame[|frame| - 1] as int - 128);
    }
  }

  /** The accumulation loop of `updateMetrics` over the time-domain data, in integers. */
  method SumSquaredDeviation(timeData: array<byte>) returns (sum: int)
    ensures sum == Energy(timeData[..])
    ensures 0 <= sum <= 16384 * timeData.Length
  {
    sum := 0;
    var i := 0;
    while i < timeData.Length
      invariant 0 <= i <= timeData.Length
      invariant sum == Energy(timeData[..i])
    {
      assert timeData[..i + 1][..i] == timeData[..i];
      var deviation := timeData[i] as int - 128;
      sum := sum + deviation * deviation;
      i := i + 1;
    }
    assert timeData[..i] == timeData[..];
    EnergyBounds(timeData[..]);
  }
}
