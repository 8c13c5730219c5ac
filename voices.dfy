/**
 * Speech handling of the meme generator: the voice selector is filled with one
 * option per available voice, and "read text" speaks the top and bottom texts
 * with the voice whose name the selected option carries.  The speech engine
 * itself (listing voices, speaking) is outside the model: the voice list is an
 * input, and the read handler returns the utterance it would hand to it.
 */
module Voices {

  datatype Option<+T> = None | Some(value: T)

  datatype Result<+T, +E> = Ok(value: T) | Err(error: E)

  /** A voice offered by the speech engine. */
  datatype Voice = Voice(name: string, lang: string, isDefault: bool)

  /**
   * An <option> of the voice selector: its text and its data-lang and
   * data-name attributes, None when the attribute is absent (as on the
   * page's own placeholder option).
   */
  datatype VoiceOption = VoiceOption(text: string, dataLang: Option<string>, dataName: Option<string>)

  /** The utterance the read handler passes to the speech engine. */
  datatype Utterance = Utterance(text: string, voice: Option<Voice>, volume: real)

  /** Why "read text" speaks nothing: the selector has no selected option, so reading its data-name throws. */
  datatype ReadError = NoSelectedOption

  const DefaultMarker: string := " -- DEFAULT"

  predicate EndsWith(s: string, suffix: string)
  {
    |suffix| <= |s| && s[|s| - |suffix|..] == suffix
  }

  /**
   * The text of a voice's option: "name (lang)", followed by " -- DEFAULT"
   * exactly for the engine's default voice.
   */
  function OptionLabel(v: Voice): (caption: string)
    ensures |caption| == |v.name| + |v.lang| + 3 + (if v.isDefault then |DefaultMarker| else 0)
    ensures caption[..|v.name| + |v.lang| + 3] == v.name + " (" + v.lang + ")"
    ensures EndsWith(caption, DefaultMarker) <==> v.isDefault
  {
    var base := v.name + " (" + v.lang + ")";
    assert base[|base| - 1] == ')';
    if v.isDefault then base + DefaultMarker else base
  }

  /** The option made for a voice: its label, with the voice's language and name as attributes. */
  function MakeOption(v: Voice): VoiceOption
  {
    VoiceOption(OptionLabel(v), Some(v.lang), Some(v.name))
  }

  /** The options appended for a voice list, built one voice at a time as the loop does. */
  function OptionsFor(voices: seq<Voice>): (options: seq<VoiceOption>)
    ensures |options| == |voices|
    ensures forall i :: 0 <= i < |voices| ==> options[i] == MakeOption(voices[i])
  {
    if voices == [] then []
    else OptionsFor(voices[..|voices| - 1]) + [MakeOption(voices[|voices| - 1])]
  }

  /** The selector's options after removing the one at index 0; nothing happens when there is none. */
  function RemoveFirst(options: seq<VoiceOption>): (rest: seq<VoiceOption>)
    ensures |options| > 0 ==> [options[0]] + rest == options
    ensures |options| == 0 ==> rest == []
  {
    if |options| > 0 then options[1..] else []
  }

  /** The voice selector element: its options in order and whether it is disabled. */
  class VoiceSelect {
    var options: seq<VoiceOption>
    var disabled: bool

    /** The selector as the page declares it. */
    constructor (initialOptions: seq<VoiceOption>, initiallyDisabled: bool)
      ensures options == initialOptions && disabled == initiallyDisabled
    {
      options := initialOptions;
      disabled := initiallyDisabled;
    }

    /**
     * The voices-changed handler: drop the first option, append one option
     * per voice in order, and enable the selector.
     */
    method Populate(voices: seq<Voice>)
      modifies this
      ensures options == RemoveFirst(old(options)) + OptionsFor(voices)
      ensures !disabled
    {
      var kept := RemoveFirst(options);
      var appended: seq<VoiceOption> := [];
      for i := 0 to |voices|
        invariant appended == OptionsFor(voices[..i])
      {
        OptionsForExtends(voices, i);
        appended := appended + [MakeOption(voices[i])];
      }
      assert voices[..|voices|] == voices;
      options := kept + appended;
      disabled := false;
    }
  }

  /** Handling one more voice appends its option to those of the voices before it. */
  lemma OptionsForExtends(voices: seq<Voice>, i: nat)
    requires i < |voices|
    ensures OptionsFor(voices[..i + 1]) == OptionsFor(voices[..i]) + [MakeOption(voices[i])]
  {
    assert voices[..i + 1][..i] == voices[..i];
  }

  /**
   * On the page the selector starts with one placeholder, so the first
   * population leaves exactly one option per voice; a second population
   * (the handler runs on every voices-changed event) removes only the first
   * option and appends the whole list again.
   */
  lemma RepopulationKeepsEarlierOptions(placeholder: VoiceOption, voices: seq<Voice>)
    requires |voices| > 0
    ensures RemoveFirst([placeholder]) + OptionsFor(voices) == OptionsFor(voices)
    ensures RemoveFirst(OptionsFor(voices)) + OptionsFor(voices) == OptionsFor(voices)[1..] + OptionsFor(voices)
    ensures |RemoveFirst(OptionsFor(voices)) + OptionsFor(voices)| == 2 * |voices| - 1
  {
    var listed := OptionsFor(voices);
    assert RemoveFirst([placeholder]) == [];
    assert RemoveFirst(listed) == listed[1..];
  }

  /** The index of the last voice whose name equals `name`; None when no voice has it. */
  function LastNamed(voices: seq<Voice>, name: Option<string>): (k: Option<nat>)
    ensures k.Some? ==> k.value < |voices| && Some(voices[k.value].name) == name
    ensures k.Some? ==> forall j :: k.value < j < |voices| ==> Some(voices[j].name) != name
    ensures k.None? <==> forall j :: 0 <= j < |voices| ==> Some(voices[j].name) != name
  {
    if voices == [] then None
    else if Some(voices[|voices| - 1].name) == name then Some(|voices| - 1)
    else LastNamed(voices[..|voices| - 1], name)
  }

  /** The voice at an index found by LastNamed, or none. */
  function VoiceAt(voices: seq<Voice>, k: Option<nat>): Option<Voice>
    requires k.Some? ==> k.value < |voices|
  {
    if k.Some? then Some(voices[k.value]) else None
  }

  /**
   * The voice loop of the read handler: every voice whose name equals the
   * selected option's data-name overwrites the utterance's voice, so the last
   * match wins, and with no match the voice stays unset.
   */
  method ChooseVoice(voices: seq<Voice>, selectedName: Option<string>) returns (voice: Option<Voice>)
    ensures voice == VoiceAt(voices, LastNamed(voices, selectedName))
  {
    voice := None;
    for i := 0 to |voices|
      invariant voice == VoiceAt(voices, LastNamed(voices[..i], selectedName))
    {
      assert voices[..i + 1][..i] == voices[..i];
      if Some(voices[i].name) == selectedName {
        voice := Some(voices[i]);
      }
    }
    assert voices[..|voices|] == voices;
  }

  /** After one population, selecting the option of a voice whose name is unique chooses that voice. */
  lemma {:induction false} SelectedOptionNamesItsVoice(voices: seq<Voice>, i: nat)
    requires i < |voices|
    requires forall j :: 0 <= j < |voices| && j != i ==> voices[j].name != voices[i].name
    ensures VoiceAt(voices, LastNamed(voices, OptionsFor(voices)[i].dataName)) == Some(voices[i])
  {
    var k := LastNamed(voices, Some(voices[i].name));
    assert k.Some?;
  }

  /** The text that is read aloud: the top text, one space, the bottom text. */
  function CombinedText(top: string, bottom: string): (text: string)
    ensures |text| == |top| + 1 + |bottom|
    ensures text[..|top|] == top && text[|top|] == ' ' && text[|top| + 1..] == bottom
  {
    top + " " + bottom
  }

  /** Splits a text at its first space; None when it has none. */
  function SplitAtFirstSpace(text: string): (parts: Option<(string, string)>)
    ensures parts.Some? ==> parts.value.0 + " " + parts.value.1 == text && ' ' !in parts.value.0
    ensures parts.None? <==> ' ' !in text
  {
    if text == [] then None
    else if text[0] == ' ' then Some(([], text[1..]))
    else match SplitAtFirstSpace(text[1..])
      case None => None
      case Some((before, after)) => Some(([text[0]] + before, after))
  }

  /** When the top text has no space, the spoken text determines both texts. */
  lemma {:induction false} CombinedTextSplits(top: string, bottom: string)
    requires ' ' !in top
    ensures SplitAtFirstSpace(CombinedText(top, bottom)) == Some((top, bottom))
  {
    var text := CombinedText(top, bottom);
    if top != [] {
      assert text[1..] == CombinedText(top[1..], bottom);
      CombinedTextSplits(top[1..], bottom);
      assert [top[0]] + top[1..] == top;
    }
  }

  /**
   * The read-text handler: the utterance carries the combined text, the
   * current volume and the chosen voice; with no selected option reading its
   * data-name throws and nothing is spoken.
   */
  method ReadText(top: string, bottom: string, selected: Option<VoiceOption>, voices: seq<Voice>, volume: real)
    returns (r: Result<Utterance, ReadError>)
    ensures r.Err? <==> selected.None?
    ensures r.Ok? ==> r.value.text == CombinedText(top, bottom) && r.value.volume == volume
    ensures r.Ok? ==> r.value.voice == VoiceAt(voices, LastNamed(voices, selected.value.dataName))
  {
    var text := CombinedText(top, bottom);
    if selected.None? {
      return Err(NoSelectedOption);
    }
    var voice := ChooseVoice(voices, selected.value.dataName);
    r := Ok(Utterance(text, voice, volume));
  }
}
