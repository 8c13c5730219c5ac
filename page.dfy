/**
 * The page-level state the event handlers of the meme generator update in
 * place: the three buttons' "disabled" flags, the volume slider's value, the
 * speech volume it sets and the icon level it shows.  Canvas drawing is not
 * modelled; the image-load handler returns where it would draw the image.
 */
module Page {
  import Fit
  import Volume
  import Buttons
  import Voices

  class MemePage {
    var submitDisabled: bool
    var clearDisabled: bool
    var readDisabled: bool
    /** The slider value last delivered by an input event. */
    var sliderValue: int
    /** The module-level volume the read handler gives each utterance. */
    var volume: real
    /** The level of the speaker icon next to the slider. */
    var iconLevel: int

    /** The three button flags as one value. */
    function Flags(): Buttons.Flags
      reads this
    {
      Buttons.Flags(submitDisabled, clearDisabled, readDisabled)
    }

    /** The buttons are in one of the two consistent states, and volume and icon agree with the slider. */
    predicate Valid()
      reads this
    {
      && Buttons.Consistent(Flags())
      && volume == Volume.VolumeOf(sliderValue)
      && iconLevel == Volume.IconLevel(sliderValue)
    }

    /**
     * The page as loaded: the volume starts at 1, which is the slider at 100,
     * and the buttons are idle.
     */
    constructor ()
      ensures Valid()
      ensures Flags() == Buttons.Idle
      ensures volume == 1.0 && sliderValue == 100 && iconLevel == 3
    {
      submitDisabled, clearDisabled, readDisabled := false, true, true;
      sliderValue := 100;
      volume := 1.0;
      iconLevel := 3;
    }

    /** The image-load handler: fit the image to the canvas, then enable generate only. */
    method OnImageLoad(canvasWidth: real, canvasHeight: real, imageWidth: real, imageHeight: real)
      returns (d: Fit.Dimensions)
      requires Valid()
      requires canvasWidth > 0.0 && canvasHeight > 0.0
      requires imageWidth > 0.0 && imageHeight > 0.0
      modifies this`submitDisabled, this`clearDisabled, this`readDisabled
      ensures Valid()
      ensures d == Fit.GetDimensions(canvasWidth, canvasHeight, imageWidth, imageHeight)
      ensures Flags() == Buttons.After(Buttons.ImageLoaded) == Buttons.Idle
    {
      d := Fit.GetDimensions(canvasWidth, canvasHeight, imageWidth, imageHeight);
      submitDisabled := false;
      clearDisabled := true;
      readDisabled := true;
    }

    /** The form-submit handler: the caption is drawn, so enable clear and read only. */
    method OnSubmit()
      requires Valid()
      modifies this`submitDisabled, this`clearDisabled, this`readDisabled
      ensures Valid()
      ensures Flags() == Buttons.After(Buttons.Submitted) == Buttons.Generated
    {
      submitDisabled := true;
      clearDisabled := false;
      readDisabled := false;
    }

    /** The clear-click handler: back to the idle buttons. */
    method OnClearClick()
      requires Valid()
      modifies this`submitDisabled, this`clearDisabled, this`readDisabled
      ensures Valid()
      ensures Flags() == Buttons.After(Buttons.ClearClicked) == Buttons.Idle
    {
      submitDisabled := false;
      clearDisabled := true;
      readDisabled := true;
    }

    /** The slider-input handler: set the volume to value/100 and show the icon for the value. */
    method OnVolumeInput(value: int)
      requires Valid()
      modifies this`sliderValue, this`volume, this`iconLevel
      ensures Valid()
      ensures sliderValue == value
      ensures volume * 100.0 == value as real
      ensures 0 <= value <= 100 ==> 0.0 <= volume <= 1.0
      ensures iconLevel == Volume.IconLevel(value)
    {
      sliderValue := value;
      volume := Volume.VolumeOf(value);
      iconLevel := Volume.IconLevel(value);
    }

    /** The read-click handler: the utterance for the texts, the selected voice and the current volume. */
    method OnReadClick(top: string, bottom: string, selected: Voices.Option<Voices.VoiceOption>, voices: seq<Voices.Voice>)
      returns (r: Voices.Result<Voices.Utterance, Voices.ReadError>)
      requires Valid()
      ensures r.Err? <==> selected.None?
      ensures r.Ok? ==> r.value.text == Voices.CombinedText(top, bottom)
      ensures r.Ok? ==> r.value.volume == volume && r.value.volume == Volume.VolumeOf(sliderValue)
      ensures r.Ok? ==> r.value.voice == Voices.VoiceAt(voices, Voices.LastNamed(voices, selected.value.dataName))
    {
      r := Voices.ReadText(top, bottom, selected, voices, volume);
    }
  }

  /**
   * A usage example, not a handler of the page: load an image, generate,
   * clear twice and mute, showing what callers can conclude from the
   * handlers' contracts alone.
   */
  method Session(side: real, imageWidth: real, imageHeight: real)
    requires side > 0.0 && imageWidth > 0.0 && imageHeight > 0.0
  {
    var page := new MemePage();
    var d := page.OnImageLoad(side, side, imageWidth, imageHeight);
    Fit.InsideSquareCanvas(side, imageWidth, imageHeight);
    assert Fit.Inside(d, side, side);
    page.OnSubmit();
    assert !page.readDisabled && page.submitDisabled;
    page.OnClearClick();
    var once := page.Flags();
    page.OnClearClick();
    assert page.Flags() == once;
    page.OnVolumeInput(0);
    assert page.iconLevel == 0 && page.volume == 0.0;
  }
}
