/**
 * The volume slider: its value (0 to 100 on the page) sets the speech volume
 * to value/100 and picks one of four speaker icons, level 0 (muted) to 3.
 * The icons' file names are not modelled, only their level.
 */
module Volume {

  /** The speech volume the slider value stands for, as Number(value) / 100. */
  function VolumeOf(sliderValue: int): (volume: real)
    ensures 0 <= sliderValue <= 100 ==> 0.0 <= volume <= 1.0
    ensures volume == 0.0 <==> sliderValue == 0
    ensures volume * 100.0 == sliderValue as real
  {
    sliderValue as real / 100.0
  }

  /**
   * The icon level for a slider value: the first range that holds the value
   * wins, 67..100 before 34..66 before 1..33; anything else shows level 0.
   */
  function IconLevel(sliderValue: int): (level: int)
    ensures 0 <= level <= 3
  {
    if 67 <= sliderValue <= 100 then 3
    else if 34 <= sliderValue <= 66 then 2
    else if 1 <= sliderValue <= 33 then 1
    else 0
  }

  /**
   * On the slider's range the icon level is the volume in thirds, rounded up:
   * level k shows for volumes in ((k-1)/3, k/3], and level 0 only for silence.
   */
  lemma IconLevelIsVolumeInThirds(sliderValue: int)
    requires 0 <= sliderValue <= 100
    ensures (IconLevel(sliderValue) - 1) as real < 3.0 * VolumeOf(sliderValue) <= IconLevel(sliderValue) as real
  {
    var v := VolumeOf(sliderValue);
    assert v * 100.0 == sliderValue as real;
    assert 3.0 * v == 3.0 * sliderValue as real / 100.0;
  }

  /** Each level is shown for exactly one block of slider values, and the blocks cover 0..100. */
  lemma IconLevelRanges(sliderValue: int)
    ensures IconLevel(sliderValue) == 3 <==> 67 <= sliderValue <= 100
    ensures IconLevel(sliderValue) == 2 <==> 34 <= sliderValue <= 66
    ensures IconLevel(sliderValue) == 1 <==> 1 <= sliderValue <= 33
    ensures IconLevel(sliderValue) == 0 <==> sliderValue <= 0 || sliderValue > 100
  {
  }

  /** Moving the slider up within its range never lowers the icon level. */
  lemma IconLevelMonotone(low: int, high: int)
    requires low <= high <= 100
    ensures IconLevel(low) <= IconLevel(high)
  {
  }
}
