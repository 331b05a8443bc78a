/** The tone generator of main.py: one period of each waveform is written
    into an unsigned 16-bit sample table, a gesture picks the table, and the
    main range reading sets the rate at which the audio output loops over
    it. */
module WaveTables {
  import Lists

  /** The element type of an array.array("H") buffer. */
  newtype u16 = x: int | 0 <= x < 0x1_0000

  /** Samples per period: 8000 // 440 + 1. */
  const TableLength: nat := 8000 / 440 + 1

  lemma TableLengthValue()
    ensures TableLength == 19
  {
  }

  /** The five tables in the order gestures cycle through them. */
  const WaveNames: seq<string> := ["sine", "square", "triangle", "saw up", "saw down"]

  /** Square wave: low for the first half of the period (i < length / 2 in
      true division), high for the rest. */
  function SquareSample(length: nat, i: nat): (r: int)
    ensures 0 <= r < 0x1_0000
    ensures 2 * i < length <==> r == 0
    ensures 2 * i >= length <==> r == 0xFFFF
  {
    if 2 * i < length then 0 else 0x1_0000 - 1
  }

  /** Rising sawtooth: int(i * 2**16 / length). */
  function SawUpSample(length: nat, i: nat): (r: int)
    requires i < length
    ensures 0 <= r < 0x1_0000
  {
    assert i * 0x1_0000 < length * 0x1_0000;
    (i * 0x1_0000) / length
  }

  /** Falling sawtooth: 2**16 - up - 1, the rising one turned upside down. */
  function SawDownSample(length: nat, i: nat): (r: int)
    requires i < length
    ensures 0 <= r < 0x1_0000
    ensures r + SawUpSample(length, i) == 0xFFFF
  {
    0x1_0000 - SawUpSample(length, i) - 1
  }

  /** Triangle wave: the first half rises at twice the sawtooth's slope,
      and each sample of the second half copies its mirror image
      length - i - 1 in the first half. */
  function TriangleSample(length: nat, i: nat): (r: int)
    requires i < length
    ensures 0 <= r < 0x1_0000
    ensures r % 2 == 0
  {
    var k := if 2 * i < length then i else length - 1 - i;
    assert 2 * k < length;
    HalfTriangleFits(length, k);
    2 * ((k * 0x1_0000) / length)
  }

  /** Doubling a first-half sample never overflows 16 bits. */
  lemma HalfTriangleFits(length: nat, k: nat)
    requires 2 * k < length
    ensures 0 <= 2 * ((k * 0x1_0000) / length) <= 0xFFFE
  {
    assert (2 * k) * 0x8000 < length * 0x8000;
    assert k * 0x1_0000 < length * 0x8000;
    DivBelow(k * 0x1_0000, length, 0x8000);
  }

  lemma DivBelow(a: nat, n: nat, q: nat)
    requires 0 < n && a < n * q
    ensures a / n < q
  {
    var d := a / n;
    assert n * d <= a;
    assert n * (q - d) > 0;
    Lists.PositiveFactor(n, q - d);
  }

  lemma DivMonotone(a: nat, b: nat, n: nat)
    requires 0 < n && a <= b
    ensures a / n <= b / n
  {
    var da, db := a / n, b / n;
    assert n * da <= a;
    assert b < n * db + n;
    assert n * (db + 1 - da) > 0;
    Lists.PositiveFactor(n, db + 1 - da);
  }

  /** The rising sawtooth never falls, and the falling one never rises. */
  lemma SawMonotone(length: nat, i: nat, j: nat)
    requires i <= j < length
    ensures SawUpSample(length, i) <= SawUpSample(length, j)
    ensures SawDownSample(length, i) >= SawDownSample(length, j)
  {
    DivMonotone(i * 0x1_0000, j * 0x1_0000, length);
  }

  /** The triangle reads the same from either end of the period. */
  lemma TriangleSymmetric(length: nat, i: nat)
    requires i < length
    ensures TriangleSample(length, i) == TriangleSample(length, length - 1 - i)
  {
  }

  /** The triangle rises over the first half of the period. */
  lemma TriangleRises(length: nat, i: nat, j: nat)
    requires i <= j && 2 * j < length
    ensures TriangleSample(length, i) <= TriangleSample(length, j)
  {
    DivMonotone(i * 0x1_0000, j * 0x1_0000, length);
  }

  /** The triangle falls over the second half of the period. */
  lemma TriangleFalls(length: nat, i: nat, j: nat)
    requires length <= 2 * i && i <= j < length
    ensures TriangleSample(length, i) >= TriangleSample(length, j)
  {
    DivMonotone((length - 1 - j) * 0x1_0000, (length - 1 - i) * 0x1_0000, length);
  }

  /** The loop at module level: allocates four zero-filled tables of
      `length` samples and fills them in one pass over i. The triangle's
      second half reads back the earlier entry length - i - 1, which the
      loop has already written. */
  method FillWaveTables(length: nat) returns (square: array<u16>, triangle: array<u16>,
                                              sawUp: array<u16>, sawDown: array<u16>)
    ensures fresh(square) && fresh(triangle) && fresh(sawUp) && fresh(sawDown)
    ensures square.Length == length && triangle.Length == length
    ensures sawUp.Length == length && sawDown.Length == length
    ensures forall i | 0 <= i < length :: square[i] as int == SquareSample(length, i)
    ensures forall i | 0 <= i < length :: triangle[i] as int == TriangleSample(length, i)
    ensures forall i | 0 <= i < length :: sawUp[i] as int == SawUpSample(length, i)
    ensures forall i | 0 <= i < length :: sawDown[i] as int == SawDownSample(length, i)
  {
    square := new u16[length](_ => 0);
    triangle := new u16[length](_ => 0);
    sawUp := new u16[length](_ => 0);
    sawDown := new u16[length](_ => 0);
    for i := 0 to length
      invariant forall j | 0 <= j < i :: square[j] as int == SquareSample(length, j)
      invariant forall j | 0 <= j < i :: triangle[j] as int == TriangleSample(length, j)
      invariant forall j | 0 <= j < i :: sawUp[j] as int == SawUpSample(length, j)
      invariant forall j | 0 <= j < i :: sawDown[j] as int == SawDownSample(length, j)
    {
      if 2 * i < length {
        square[i] := 0;
        var half := TriangleSample(length, i);
        triangle[i] := half as u16;
      } else {
        square[i] := (0x1_0000 - 1) as u16;
        var mirror := length - i - 1;
        assert mirror < i;
        triangle[i] := triangle[mirror];
      }
      var up := SawUpSample(length, i);
      sawUp[i] := up as u16;
      sawDown[i] := (0x1_0000 - sawUp[i] as int - 1) as u16;
    }
  }

  /** The wave index after a gesture: 1 steps forward and 2 steps back
      through the five tables, wrapping at both ends; other codes leave it. */
  function WaveSelectAfter(waveIndex: int, g: int): (r: int)
    requires 0 <= waveIndex < |WaveNames|
    ensures 0 <= r < |WaveNames|
    ensures g != 1 && g != 2 ==> r == waveIndex
    ensures g == 1 ==> r == if waveIndex + 1 < |WaveNames| then waveIndex + 1 else 0
    ensures g == 2 ==> r == if waveIndex > 0 then waveIndex - 1 else |WaveNames| - 1
  {
    var n := |WaveNames|;
    if g == 1 then (waveIndex + 1) % n
    else if g == 2 then (waveIndex + n - 1) % n
    else waveIndex
  }

  /** A forward and a backward gesture cancel, in either order. */
  lemma WaveSelectRoundTrip(waveIndex: int)
    requires 0 <= waveIndex < |WaveNames|
    ensures WaveSelectAfter(WaveSelectAfter(waveIndex, 1), 2) == waveIndex
    ensures WaveSelectAfter(WaveSelectAfter(waveIndex, 2), 1) == waveIndex
  {
  }

  /** The wave index after `m` forward gestures. */
  function WaveSelectForward(waveIndex: int, m: nat): (r: int)
    requires 0 <= waveIndex < |WaveNames|
    ensures 0 <= r < |WaveNames|
  {
    if m == 0 then waveIndex else WaveSelectAfter(WaveSelectForward(waveIndex, m - 1), 1)
  }

  /** Forward gestures move the index by m modulo the number of tables, so
      five of them come back to the starting table. */
  lemma {:induction false} WaveSelectForwardAt(waveIndex: int, m: nat)
    requires 0 <= waveIndex < |WaveNames|
    ensures WaveSelectForward(waveIndex, m) == (waveIndex + m) % |WaveNames|
  {
    if m > 0 {
      WaveSelectForwardAt(waveIndex, m - 1);
    }
  }

  /** The sample rate of continuous mode: int(30 * r1 + 1000) Hz. */
  function ContinuousSampleRate(r1: int): (rate: int)
    ensures 0 < r1 < 500 ==> 1030 <= rate <= 15970
  {
    30 * r1 + 1000
  }

  /** A farther hand gives a higher rate, one step of 30 Hz per mm. */
  lemma ContinuousSampleRateMonotone(r1: int, r1': int)
    requires r1 < r1'
    ensures ContinuousSampleRate(r1') - ContinuousSampleRate(r1) == 30 * (r1' - r1)
    ensures ContinuousSampleRate(r1) < ContinuousSampleRate(r1')
  {
  }

  /** One octave of equal-tempered pitches upward from A4 = 440 Hz, with
      G5 as 783.99 Hz. */
  const OneOctave: seq<real> :=
    [440.00, 466.16, 493.88, 523.25, 554.37, 587.33, 622.25, 659.25, 698.46, 739.99, 783.99, 830.61]

  /** The table as main.py writes it: the G5 entry reads 83.99. */
  const OneOctaveAsWritten: seq<real> :=
    [440.00, 466.16, 493.88, 523.25, 554.37, 587.33, 622.25, 659.25, 698.46, 739.99, 83.99, 830.61]

  predicate Ascending(s: seq<real>) {
    forall i, j | 0 <= i < j < |s| :: s[i] < s[j]
  }

  /** The corrected table rises from each pitch to the next. */
  lemma OneOctaveAscending()
    ensures Ascending(OneOctave)
  {
    forall i, j | 0 <= i < j < |OneOctave|
      ensures OneOctave[i] < OneOctave[j]
    {
      StepsUp(OneOctave, i, j);
    }
  }

  lemma {:induction false} StepsUp(s: seq<real>, i: nat, j: nat)
    requires i < j < |s|
    requires forall k | 0 <= k < |s| - 1 :: s[k] < s[k + 1]
    ensures s[i] < s[j]
  {
    if i + 1 < j {
      StepsUp(s, i, j - 1);
    }
  }

  /** The table as written drops from F#5 to 83.99 Hz, lower than A4. */
  lemma OneOctaveAsWrittenNotAscending()
    ensures !Ascending(OneOctaveAsWritten)
    ensures OneOctaveAsWritten[10] < OneOctaveAsWritten[0]
  {
    assert OneOctaveAsWritten[9] > OneOctaveAsWritten[10];
  }

  /** The table index rangeToRate uses: mm // 50 (floor division). */
  function RateIndex(mm: int): (k: int)
    ensures 0 < mm < 500 ==> 0 <= k <= 9 && k < |OneOctave|
    ensures 50 * k <= mm < 50 * k + 50
  {
    mm / 50
  }

  /** rangeToRate(mm) = ONE_OCTAVE[mm // 50] * (8000 // 440), with Python's
      negative indexing; an index outside the table raises IndexError in
      the source, which callers must avoid. */
  function RangeToRate(mm: int): (rate: real)
    requires -50 * |OneOctave| <= mm < 50 * |OneOctave|
    ensures 0 <= mm ==> rate == OneOctave[RateIndex(mm)] * 18.0
  {
    Lists.PyIndex(OneOctave, RateIndex(mm)) * (8000 / 440) as real
  }

  /** rangeToRate over the table as written. */
  function RangeToRateAsWritten(mm: int): (rate: real)
    requires -50 * |OneOctaveAsWritten| <= mm < 50 * |OneOctaveAsWritten|
    ensures 0 <= mm ==> rate == OneOctaveAsWritten[RateIndex(mm)] * 18.0
  {
    Lists.PyIndex(OneOctaveAsWritten, RateIndex(mm)) * (8000 / 440) as real
  }

  /** Over 0..599 mm the corrected mapping never lowers the rate as the
      hand moves away. */
  lemma RangeToRateMonotone(mm: int, mm': int)
    requires 0 <= mm <= mm' < 50 * |OneOctave|
    ensures RangeToRate(mm) <= RangeToRate(mm')
  {
    OneOctaveAscending();
    assert RateIndex(mm) <= RateIndex(mm');
  }

  /** As written, moving from 470 mm to 520 mm drops the rate from about
      13320 Hz to about 1512 Hz. */
  lemma RangeToRateAsWrittenDrops()
    ensures RangeToRateAsWritten(520) < RangeToRateAsWritten(470)
  {
    assert RateIndex(520) == 10 && RateIndex(470) == 9;
  }

  /** The sample buffer the audio output is told to loop over. */
  datatype DacCommand = PlayLoop(waveIndex: int, sampleRate: int) | StopDac

  /** What a pass of the loop does with the main range reading `r1` (mm) in
      continuous mode: loop the selected table at 30 * r1 + 1000 Hz when
      0 < r1 < 500, otherwise stop. */
  function ToneCommand(waveIndex: int, r1: int): (cmd: DacCommand)
    ensures cmd.PlayLoop? <==> 0 < r1 < 500
    ensures cmd.PlayLoop? ==> cmd.waveIndex == waveIndex && 1030 <= cmd.sampleRate <= 15970
  {
    if 0 < r1 < 500 then PlayLoop(waveIndex, ContinuousSampleRate(r1)) else StopDac
  }

  /** The loop state of main.py: the selected table. */
  class ToneLoop {
    var waveIndex: int

    ghost predicate Valid()
      reads this
    {
      0 <= waveIndex < |WaveNames|
    }

    /** The loop starts on the sine table. */
    constructor ()
      ensures Valid() && waveIndex == 0
    {
      waveIndex := 0;
    }

    /** One pass: the gesture code `g` (0 for none) may change the table,
        then the range reading `r1` decides what the audio output does. */
    method Step(g: int, r1: int) returns (cmd: DacCommand)
      requires Valid()
      modifies this
      ensures Valid()
      ensures waveIndex == WaveSelectAfter(old(waveIndex), g)
      ensures cmd == ToneCommand(waveIndex, r1)
    {
      if g == 1 {
        waveIndex := waveIndex + 1;
        if waveIndex >= |WaveNames| {
          waveIndex := 0;
        }
      } else if g == 2 {
        waveIndex := waveIndex - 1;
        if waveIndex < 0 {
          waveIndex := |WaveNames| - 1;
        }
      }
      if r1 > 0 && r1 < 500 {
        var sampleRate := 30 * r1 + 1000;
        cmd := PlayLoop(waveIndex, sampleRate);
      } else {
        cmd := StopDac;
      }
    }
  }
}
