/** The home page's state and the handlers that change it. Each handler
    requires the render condition under which the page shows the control
    that fires it: those conditions are the only thing deciding which events
    can happen in which state. */
module Home {
  import opened Common
  import opened EnhancementOptions
  import opened HuggingFaceApi

  /** What handleEnhance captured when it started: the file and options it
      passes to the client, and its start time. */
  datatype Request = Request(file: File, options: Options, startTime: int)

  /** How the awaited client call settled: the value it resolved with
      (None for null) or a rejection. */
  datatype Settlement = Resolved(image: Option<Handle>) | Rejected

  class Session {
    var file: Option<File>
    var preview: Option<Handle>
    var result: Option<Handle>
    var loading: bool
    var enhancementTime: Option<int>
    var options: Options
    /** The handleEnhance call suspended at its await, if any. */
    var pending: Option<Request>

    ghost predicate Valid()
      reads this
    {
      && (preview.Some? <==> file.Some?)
      && (result.Some? ==> file.Some?)
      && (loading <==> pending.Some?)
      && (loading ==> && file.Some? && result.None?
                      && pending.value.file == file.value
                      && pending.value.options == options)
      // Every state the page can reach: "custom" is never selected and no
      // custom background is ever set (see EnhancementOptions.NeverCustom).
      && options.backgroundType in PresetIds
      && options.customBackground.None?
    }

    /** The uploader is shown only while no file is chosen. */
    predicate UploaderShown()
      reads this
    {
      file.None?
    }

    /** The settings panel, with the generate button, is shown only for a
        chosen file with no request running and no result yet. */
    predicate SettingsShown()
      reads this
    {
      file.Some? && !loading && result.None?
    }

    /** Presets and the blend slider sit inside the settings panel and
        appear only while background replacement is on. */
    predicate BackgroundPanelShown()
      reads this
    {
      SettingsShown() && options.backgroundChange
    }

    /** The custom background upload appears only for the "custom" type. */
    predicate CustomUploadShown()
      reads this
    {
      BackgroundPanelShown() && options.backgroundType == "custom"
    }

    /** The result section, with "Start New", is shown once there is a result. */
    predicate ResultShown()
      reads this
    {
      result.Some?
    }

    constructor ()
      ensures Valid() && UploaderShown()
      ensures file == None && preview == None && result == None
      ensures !loading && enhancementTime == None && pending == None
      ensures options == Defaults
    {
      file, preview, result := None, None, None;
      loading, enhancementTime := false, None;
      options := Defaults;
      pending := None;
    }

    /** handleSelect: a new image and its preview URL; any result is dropped. */
    method HandleSelect(image: File, url: Handle)
      requires Valid() && UploaderShown()
      modifies this
      ensures Valid()
      ensures file == Some(image) && preview == Some(url)
      ensures result == None && enhancementTime == None
      ensures options == old(options) && loading == old(loading) && pending == old(pending)
    {
      file := Some(image);
      preview := Some(url);
      result := None;
      enhancementTime := None;
    }

    /** handleEnhance up to its await: loading is set and the file, the
        options and the start time are captured. */
    method StartEnhance(now: int) returns (request: Request)
      requires Valid() && SettingsShown()
      modifies this
      ensures Valid() && loading && pending == Some(request)
      ensures request == Request(old(file).value, old(options), now)
      ensures file == old(file) && preview == old(preview) && options == old(options)
      ensures result == old(result) && enhancementTime == old(enhancementTime)
    {
      loading := true;
      request := Request(file.value, options, now);
      pending := Some(request);
    }

    /** handleEnhance after its await. On success the image is shown and the
        elapsed time recorded; on failure both stay as they were. Either way
        loading ends. */
    method FinishEnhance(settled: Settlement, now: int)
      requires Valid() && loading
      modifies this
      ensures Valid() && !loading && pending == None
      ensures settled.Resolved? ==> result == settled.image
      ensures settled.Resolved? ==> enhancementTime == Some(now - old(pending).value.startTime)
      ensures settled.Rejected? ==> result == old(result) && enhancementTime == old(enhancementTime)
      ensures settled.Rejected? ==> SettingsShown()
      ensures file == old(file) && preview == old(preview) && options == old(options)
    {
      match settled {
        case Resolved(image) =>
          result := image;
          enhancementTime := Some(now - pending.value.startTime);
        case Rejected =>
      }
      loading := false;
      pending := None;
    }

    /** The whole of handleEnhance with this client behind the await. The
        client never rejects, so the failure branch is never taken: the page
        shows the generated image, or the fallback when generation failed.
        Only when the fallback read fails too does the client resolve with
        null: then no result is shown, the settings panel comes back, and
        the elapsed time is recorded all the same. */
    method HandleEnhance(token: Option<string>, segmentation: Outcome, generation: Outcome,
                         readable: bool, startTime: int, endTime: int)
      requires Valid() && SettingsShown()
      modifies this
      ensures Valid() && !loading
      ensures result == (if !TokenMissing(token) && generation.Ok? then Some(generation.handle)
                         else Fallback(old(file).value, readable))
      ensures ResultShown() <==> (!TokenMissing(token) && generation.Ok?) || readable
      ensures !ResultShown() ==> SettingsShown()
      ensures enhancementTime == Some(endTime - startTime)
      ensures file == old(file) && preview == old(preview) && options == old(options)
    {
      var request := StartEnhance(startTime);
      var image, _ := EnhanceImage(request.file, request.options, token, segmentation, generation, readable);
      FinishEnhance(Resolved(image), endTime);
    }

    /** A control of the settings panel: an enhancement card, the background
        checkbox, a preset card, the custom upload, the blend slider or the
        notes text area, each only while the page shows it. */
    method ChangeOptions(e: OptionsEvent)
      requires Valid() && SettingsShown() && Shown(options, e)
      modifies this`options
      ensures Valid() && options == Apply(old(options), e)
      ensures !CustomUploadShown()
    {
      ShownKeepsPreset(options, e);
      options := Apply(options, e);
    }

    /** "Start New": back to the uploader, keeping the options. */
    method StartNew()
      requires Valid() && ResultShown()
      modifies this
      ensures Valid() && UploaderShown()
      ensures file == None && preview == None && result == None && enhancementTime == None
      ensures options == old(options) && !loading && pending == None
    {
      file := None;
      preview := None;
      result := None;
      enhancementTime := None;
    }
  }

  /** While a request runs, no control that fires a handler is on the page:
      the uploader, the settings panel and the result section are all hidden,
      so only the settlement of that request can change the state. */
  lemma NothingShownWhileLoading(s: Session)
    requires s.Valid() && s.loading
    ensures !s.UploaderShown() && !s.SettingsShown() && !s.ResultShown()
  {
  }

  /** The custom background upload is never on the page: the only control
      that selects "custom" is that upload itself. */
  lemma CustomUploadNeverShown(s: Session, picked: Option<File>, url: Handle)
    requires s.Valid()
    ensures !s.CustomUploadShown() && !Shown(s.options, CustomUpload(picked, url))
  {
  }

  /** A result on the page always belongs to a chosen file, and the
      uploader and the settings panel are hidden while it is shown. */
  lemma ResultExcludesOtherPanels(s: Session)
    requires s.Valid() && s.ResultShown()
    ensures s.file.Some? && !s.loading
    ensures !s.UploaderShown() && !s.SettingsShown()
  {
  }
}
