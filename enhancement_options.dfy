/** The enhancement options record of the home page and the pure updates the
    page applies to it (each is a `prev => ({...prev, key: value})` copy). */
module EnhancementOptions {
  import opened Common

  datatype Options = Options(
    lighting: bool,
    composition: bool,
    colors: bool,
    sharpness: bool,
    backgroundChange: bool,
    backgroundType: string,
    backgroundIntensity: int,
    customBackground: Option<Handle>,  // None stands for the initial ""
    referenceNotes: string)

  /** The record the page starts with. */
  const Defaults := Options(true, true, true, true, false, "studio", 50, None, "")

  /** The ids of the background presets, in the order they are shown. */
  const PresetIds: seq<string> := ["studio", "outdoor", "blur", "beach", "office", "none"]

  /** The background types the page itself can put into the record. */
  predicate KnownBackgroundType(t: string) {
    t in PresetIds || t == "custom"
  }

  /** The four enhancement switches, in the order the page lists them. */
  datatype Flag = Lighting | Composition | Colors | Sharpness

  function FlagValue(o: Options, f: Flag): bool {
    match f
    case Lighting => o.lighting
    case Composition => o.composition
    case Colors => o.colors
    case Sharpness => o.sharpness
  }

  /** `a` and `b` agree on everything except, possibly, the four switches. */
  predicate SameExceptFlags(a: Options, b: Options) {
    && a.backgroundChange == b.backgroundChange
    && a.backgroundType == b.backgroundType
    && a.backgroundIntensity == b.backgroundIntensity
    && a.customBackground == b.customBackground
    && a.referenceNotes == b.referenceNotes
  }

  /** Clicking an enhancement card inverts that switch. */
  function Toggle(o: Options, f: Flag): (r: Options)
    ensures FlagValue(r, f) == !FlagValue(o, f)
    ensures forall g :: g != f ==> FlagValue(r, g) == FlagValue(o, g)
    ensures SameExceptFlags(r, o)
  {
    match f
    case Lighting => o.(lighting := !o.lighting)
    case Composition => o.(composition := !o.composition)
    case Colors => o.(colors := !o.colors)
    case Sharpness => o.(sharpness := !o.sharpness)
  }

  /** Toggling a switch twice gives back the record it started from. */
  lemma ToggleTwice(o: Options, f: Flag)
    ensures Toggle(Toggle(o, f), f) == o
  {
  }

  /** The order in which two switches are toggled does not matter. */
  lemma ToggleCommutes(o: Options, f: Flag, g: Flag)
    ensures Toggle(Toggle(o, f), g) == Toggle(Toggle(o, g), f)
  {
  }

  /** The background checkbox. */
  function SetBackgroundChange(o: Options, checked: bool): (r: Options)
    ensures r.backgroundChange == checked
    ensures r.(backgroundChange := o.backgroundChange) == o
  {
    o.(backgroundChange := checked)
  }

  /** Clicking one of the preset cards. */
  function SelectPreset(o: Options, id: string): (r: Options)
    requires id in PresetIds
    ensures r.backgroundType == id && KnownBackgroundType(r.backgroundType)
    ensures r.backgroundType != "custom"
    ensures r.(backgroundType := o.backgroundType) == o
  {
    o.(backgroundType := id)
  }

  /** Uploading a custom background: the three fields change together. */
  function WithCustomBackground(o: Options, url: Handle): (r: Options)
    ensures r.customBackground == Some(url)
    ensures r.backgroundChange && r.backgroundType == "custom"
    ensures r.(customBackground := o.customBackground,
               backgroundChange := o.backgroundChange,
               backgroundType := o.backgroundType) == o
  {
    o.(customBackground := Some(url), backgroundChange := true, backgroundType := "custom")
  }

  /** The blend slider. */
  function SetIntensity(o: Options, value: int): (r: Options)
    ensures r.backgroundIntensity == value
    ensures r.(backgroundIntensity := o.backgroundIntensity) == o
  {
    o.(backgroundIntensity := value)
  }

  /** The reference notes text area. */
  function SetNotes(o: Options, notes: string): (r: Options)
    ensures r.referenceNotes == notes
    ensures r.(referenceNotes := o.referenceNotes) == o
  {
    o.(referenceNotes := notes)
  }

  /** The controls of the settings panel that change the options. */
  datatype OptionsEvent =
    | ToggleCard(flag: Flag)
    | Checkbox(checked: bool)
    | PresetCard(id: string)
    | CustomUpload(picked: Option<File>, url: Handle)
    | Slider(value: int)
    | NotesInput(text: string)

  /** Whether the control behind `e` is on the settings panel: the presets
      and the slider only while background replacement is on, the custom
      upload only while "custom" is the selected type. */
  predicate Shown(o: Options, e: OptionsEvent) {
    match e
    case PresetCard(id) => o.backgroundChange && id in PresetIds
    case Slider(_) => o.backgroundChange
    case CustomUpload(_, _) => o.backgroundChange && o.backgroundType == "custom"
    case _ => true
  }

  /** The update a control makes. A custom upload with no file picked
      changes nothing; `url` is the object URL made for the picked file. */
  function Apply(o: Options, e: OptionsEvent): (r: Options)
    requires e.PresetCard? ==> e.id in PresetIds
    ensures r.backgroundType == o.backgroundType
            || (e.PresetCard? && r.backgroundType == e.id)
            || (e.CustomUpload? && e.picked.Some? && r.backgroundType == "custom")
    ensures r.customBackground != o.customBackground ==> e.CustomUpload? && e.picked.Some?
    ensures e.CustomUpload? ==> r == (if e.picked.Some? then WithCustomBackground(o, e.url) else o)
  {
    match e
    case ToggleCard(f) => Toggle(o, f)
    case Checkbox(checked) => SetBackgroundChange(o, checked)
    case PresetCard(id) => SelectPreset(o, id)
    case CustomUpload(picked, url) => if picked.Some? then WithCustomBackground(o, url) else o
    case Slider(value) => SetIntensity(o, value)
    case NotesInput(text) => SetNotes(o, text)
  }

  /** The controls of a run of events, each on the panel when it fires. */
  predicate Playable(o: Options, events: seq<OptionsEvent>)
    decreases |events|
  {
    events == [] || (Shown(o, events[0]) && Playable(Apply(o, events[0]), events[1..]))
  }

  function ApplyAll(o: Options, events: seq<OptionsEvent>): Options
    requires Playable(o, events)
    decreases |events|
  {
    if events == [] then o else ApplyAll(Apply(o, events[0]), events[1..])
  }

  /** One control on the panel keeps the type among the preset ids and
      leaves the custom background alone. */
  lemma ShownKeepsPreset(o: Options, e: OptionsEvent)
    requires o.backgroundType in PresetIds && Shown(o, e)
    ensures Apply(o, e).backgroundType in PresetIds
    ensures Apply(o, e).customBackground == o.customBackground
  {
  }

  /** Starting from a preset type, no run of controls the page shows ever
      selects "custom" or sets a custom background: presets never produce
      "custom", and the upload that would is shown only once "custom" is
      already selected. */
  lemma {:induction false} NeverCustom(o: Options, events: seq<OptionsEvent>)
    requires o.backgroundType in PresetIds && Playable(o, events)
    ensures ApplyAll(o, events).backgroundType in PresetIds
    ensures ApplyAll(o, events).backgroundType != "custom"
    ensures ApplyAll(o, events).customBackground == o.customBackground
    decreases |events|
  {
    if events != [] {
      ShownKeepsPreset(o, events[0]);
      NeverCustom(Apply(o, events[0]), events[1..]);
    }
  }
}
