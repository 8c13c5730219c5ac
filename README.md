# Meme generator (Lab5) — a verified model of its logic

The meme generator is a single browser script, `script.js`. A user uploads an
image. The image is drawn on a canvas, keeping its aspect ratio. Top and bottom
captions are drawn over it. The captions can be read aloud by the browser's
speech engine, with a chosen voice and a volume set by a slider.

Most of the script is glue over the browser. This project models the parts that
have behaviour that can be stated:

- `Fit` (`fit.dfy`): `getDimensions`, which scales the image to fill one axis of
  the canvas and centres it on the other. Portrait images (width/height < 1)
  fill the height. Landscape and square images fill the width. Sizes are exact
  `real`s.
- `Volume` (`volume.dfy`): the slider value sets the volume to value/100 and
  picks one of four speaker-icon levels.
- `Buttons` (`buttons.dfy`): the "disabled" flags of the generate, clear and
  read-text buttons, set by the image-load, submit and clear handlers. Each
  handler overwrites all three flags, so only the last event counts.
- `Voices` (`voices.dfy`): filling the voice selector with one labelled option
  per voice; choosing the voice for the selected option (the last voice with
  that name wins); the spoken text `top + " " + bottom`; the read handler.
- `Page` (`page.dfy`): the class `MemePage`, whose fields are the state the
  handlers update in place: three button flags, the slider value, the volume
  and the icon level. Its methods are the event handlers.

The doc comment of `getDimensions` (script.js:132-142) says the image fits
perfectly into the canvas. The code only guarantees this on a square canvas, or
more exactly under the ratio condition of `Fit.InsideExactly`. On a 100×400 canvas a
300×400 image starts at x = −100 (`Fit.OverflowOnTallCanvas`).

The voices-changed handler removes only the option at index 0 before appending
the voices. If the event fires a second time, the earlier options except the
first stay in the list (`Voices.RepopulationKeepsEarlierOptions`).

## Model

| member | source | states |
|---|---|---|
| `Fit.GetDimensions` | script.js:143-170 | For positive sizes: the result is positive and keeps the image's aspect ratio (width·imageHeight = height·imageWidth). A portrait image takes the canvas height with startY = 0. A landscape or square image takes the canvas width with startX = 0. The image is centred on both axes: 2·startX + width = canvasWidth and 2·startY + height = canvasHeight. |
| `Fit.RatioFacts` | script.js:147-150 | The aspect ratio is positive, and it is below 1 exactly when the image is narrower than it is tall. |
| `Fit.ScaledByRatio` | script.js:154 | Canvas height times the aspect ratio is positive and proportional to the image: times imageHeight it equals canvasHeight·imageWidth. |
| `Fit.DividedByRatio` | script.js:163 | Canvas width divided by the aspect ratio is positive and proportional to the image: times imageWidth it equals canvasWidth·imageHeight. |
| `Fit.InsideExactly` | script.js:143-170 | The fitted image lies inside the canvas if and only if canvasHeight·imageWidth ≤ canvasWidth·imageHeight (portrait) or canvasWidth·imageHeight ≤ canvasHeight·imageWidth (landscape or square). |
| `Fit.InsideSquareCanvas` | script.js:132-142 | On a square canvas the doc comment's promise holds: startX, startY ≥ 0, startX + width ≤ side and startY + height ≤ side. |
| `Fit.OverflowOnTallCanvas` | script.js:150-157 | A 300×400 image on a 100×400 canvas is drawn 300×400 at x = −100, so it does not fit: containment is not unconditional. |
| `Fit.WorkedCases` | script.js:143-170 | Portrait 100×200, landscape 200×100 and square 50×50 images on square canvases, and a 900×300 image on a 300×600 canvas, give the expected size and offset. |
| `Volume.VolumeOf` | script.js:118 | The volume is value/100: it lies in [0, 1] for slider values 0..100, and it is 0 exactly for value 0. |
| `Volume.IconLevel` | script.js:121-130 | Every slider value gets exactly one icon level, in 0..3. |
| `Volume.IconLevelRanges` | script.js:121-130 | Level 3 exactly for 67..100, 2 for 34..66, 1 for 1..33, and 0 for everything else (0 and below, above 100). |
| `Volume.IconLevelIsVolumeInThirds` | script.js:118-130 | On 0..100 the icon level is the volume in thirds rounded up: (level − 1) < 3·volume ≤ level. |
| `Volume.IconLevelMonotone` | script.js:121-130 | Up to 100, a higher slider value never shows a lower icon level. |
| `Buttons.After` | script.js:50-97 | After any handler the flags are consistent (clear and read disabled together, exactly when generate is enabled), and generate is disabled exactly after a submit. |
| `Buttons.ReplayLastEventDecides` | script.js:50-97 | After a non-empty run of events, the flags are those the last event's handler sets; earlier events and the start state do not matter. |
| `Buttons.ReachableConsistent` | script.js:50-97 | From a consistent start, every reachable state is consistent, and after any event it is either idle or generated. |
| `Buttons.ClearIdempotent` | script.js:93-96 | A second clear click changes nothing. |
| `Buttons.LoadSameAsClear` | script.js:50-96 | Loading an image and clicking clear leave the same flags: idle. |
| `Voices.OptionLabel` | script.js:25-29 | An option's text starts with "name (lang)", has exactly that length plus the marker's length for the default voice, and ends in " -- DEFAULT" exactly when the voice is the default. |
| `Voices.OptionsFor` | script.js:23-34 | Exactly one option per voice, in the voices' order; option i carries voice i's label, data-lang and data-name. |
| `Voices.OptionsForExtends` | script.js:24-33 | Handling one more voice appends exactly its option after the options of the voices before it. |
| `Voices.RemoveFirst` | script.js:22 | Removing index 0 drops exactly the first option, and does nothing on an empty selector. |
| `Voices.VoiceSelect.Populate` | script.js:20-36 | The options afterwards are the old ones without the first, followed by one option per voice in order, and the selector is enabled. |
| `Voices.RepopulationKeepsEarlierOptions` | script.js:20-36 | From the single placeholder, one population gives exactly the voices' options. A second population keeps all earlier options but the first, giving 2·n − 1 options. |
| `Voices.LastNamed` | script.js:105-110 | Gives the index of a voice with the wanted name, with no later voice of that name. It gives none exactly when no voice has that name, which includes an option without a data-name. |
| `Voices.ChooseVoice` | script.js:105-110 | The loop leaves the utterance's voice as the last voice whose name equals the selected data-name, or unset when none does. |
| `Voices.SelectedOptionNamesItsVoice` | script.js:31-32 | When a voice's name is unique, selecting the option made for it chooses that very voice. |
| `Voices.CombinedText` | script.js:103 | The spoken text is the top text, then exactly one space, then the bottom text. |
| `Voices.SplitAtFirstSpace` | script.js:103 | Splitting at the first space gives a space-free head that, rejoined with one space, is the text again; there is no split exactly when the text has no space. |
| `Voices.CombinedTextSplits` | script.js:103 | When the top text has no space, splitting the spoken text at its first space gives back the top and bottom texts. |
| `Voices.ReadText` | script.js:100-113 | It fails exactly when no option is selected. Otherwise the utterance has the combined text, the given volume, and the last voice named by the option's data-name. |
| `Page.MemePage.constructor` | script.js:17 | The volume starts at 1 (slider at 100, icon level 3), and the buttons start idle. |
| `Page.MemePage.OnImageLoad` | script.js:40-54 | It returns the fitted dimensions, leaves generate enabled and clear and read disabled, and keeps the page invariant. |
| `Page.MemePage.OnSubmit` | script.js:79-82 | Generate becomes disabled, clear and read become enabled, and the invariant is kept. |
| `Page.MemePage.OnClearClick` | script.js:93-96 | Back to idle buttons, and the invariant is kept. |
| `Page.MemePage.OnVolumeInput` | script.js:116-131 | The slider value is stored and volume·100 equals it. The volume is in [0, 1] for values 0..100, and the icon shows the value's level, so volume and icon stay in step with the slider. |
| `Page.MemePage.OnReadClick` | script.js:100-113 | The utterance uses the page's current volume, the combined text and the voice chosen by the selected option; nothing is read without a selected option. |

## Left out

- Looking up page elements and drawing on the canvas (clearing, filling, drawing the image, the caption text and its font). These are side effects on the browser's surfaces. `OnImageLoad` returns the dimensions that would be drawn.
- Loading the uploaded file (object URLs, `img.src`, the asynchronous load event): browser I/O. The image's size is a parameter of `OnImageLoad`.
- The speech engine: listing voices, the voices-changed event and speaking. The voice list is a parameter, and the read handler returns the utterance it would speak.
- Floating point: `getDimensions` and the volume `Number(value) / 100` run on IEEE-754 doubles (7/100 is stored as 0.0700000000000000066…, and (7/100)·100 gives 7.000000000000001). The model uses exact reals and says nothing about rounding; in particular volume·100 = value, as `Volume.VolumeOf` and `Page.MemePage.OnVolumeInput` state it, holds only for exact reals. Zero, negative and non-finite sizes are not guarded in the code; they are excluded by preconditions.
- The icon image paths: icons are modelled by their level 0..3.
- Volume.IconLevel: takes the slider value as a whole number, as a range input with step 1 from 0 to 100 gives. A fractional value such as 33.5 falls through every range of script.js:121-130 to level 0 in the source; an integer parameter cannot express that case.
- The page's HTML is not part of this model. The starting flags (generate enabled, clear and read disabled), the slider at 100 and the selector's initial options are assumptions. The selector's initial options are a constructor parameter.
- Which option the user has selected is browser state; the read handler takes it as a parameter.
- The clear button is a reset button. The browser's reset of the form's controls is not modelled, and neither is the browser refusing events on disabled buttons. A reset fires no input event, so if it moves the slider back to its default, the volume and icon keep their values; `sliderValue` is the value last delivered by an input event.
- Determinism of `getDimensions` on equal inputs is not stated separately: every Dafny function is deterministic.
