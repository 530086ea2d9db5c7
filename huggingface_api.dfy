/** The enhancement client: builds the prompt, makes the optional
    segmentation call and the generation call, and falls back to the
    original file whenever anything inside its try block throws. The network
    is replaced by the outcomes the two calls would have. */
module HuggingFaceApi {
  import opened Common
  import opened EnhancementOptions
  import opened Prompt

  /** What a remote call came to: a successful response whose body became
      the given object URL, or a failure of any kind (a status that is not
      ok, a transport error, a body that cannot be read). */
  datatype Outcome = Ok(handle: Handle) | Err

  /** The requests that left the client: whether the segmentation endpoint
      was contacted, and the prompt sent to the generation endpoint, if any. */
  datatype Requests = Requests(segmentation: bool, generationPrompt: Option<string>)

  /** The token test `!HF_TOKEN`: an unset or empty token. */
  predicate TokenMissing(token: Option<string>) {
    token.None? || token.value == ""
  }

  /** The fallback: the original file read back by a FileReader. Its
      `onloadend` fires after a failed read as well, and then resolves with
      the reader's null result; `readable` says which of the two happened. */
  function Fallback(file: File, readable: bool): Option<Handle> {
    if readable then Some(DataUrl(file)) else None
  }

  /** One call of the client. It never rejects: every error, including the
      missing token, is caught and turned into the fallback. The
      segmentation outcome is only logged, so the ensures fix the image and
      the requests whatever `segmentation` is. */
  method EnhanceImage(file: File, options: Options, token: Option<string>,
                      segmentation: Outcome, generation: Outcome, readable: bool)
    returns (image: Option<Handle>, sent: Requests)
    ensures TokenMissing(token) ==> sent == Requests(false, None)
    ensures !TokenMissing(token) ==> sent == Requests(WantsBackground(options), Some(PromptOf(options)))
    ensures !TokenMissing(token) && generation.Ok? ==> image == Some(generation.handle)
    ensures TokenMissing(token) || generation.Err? ==> image == Fallback(file, readable)
    ensures image.None? <==> (TokenMissing(token) || generation.Err?) && !readable
  {
    sent := Requests(false, None);
    image := None;
    var thrown := false;
    if TokenMissing(token) {
      thrown := true;
    } else {
      var prompt := BuildPrompt(options);
      if options.backgroundChange && options.backgroundType != "none" {
        // The pre-pass is awaited inside its own try; success and failure
        // are both only logged.
        sent := sent.(segmentation := true);
      }
      sent := sent.(generationPrompt := Some(prompt));
      match generation
      case Ok(h) =>
        image := Some(h);
      case Err =>
        thrown := true;
    }
    if thrown {
      image := Fallback(file, readable);
    }
  }
}
