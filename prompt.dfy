/** The instruction text that the enhancement client sends to the image
    generation model, built from the options record. (Long clauses are
    written as two joined literals; the text is unchanged.) */
module Prompt {
  import opened Common
  import opened EnhancementOptions

  const Preamble := "Professional photo enhancement: "

  const LightingClause := "improve lighting, " + "adjust brightness and contrast, "
  const CompositionClause := "improve composition and framing, "
  const ColorsClause := "enhance colors, increase saturation, "
  const SharpnessClause := "increase sharpness and details, "

  const StudioFragment := "with professional studio background, " + "clean white backdrop, "
  const OutdoorFragment := "with beautiful outdoor background, " + "natural scenery, "
  const BlurFragment := "with soft blurred background, " + "bokeh effect, "
  const BeachFragment := "with tropical beach background, " + "ocean and palm trees, "
  const OfficeFragment := "with modern office background, " + "professional workspace, "
  const CustomFragment := "with replaced background, " + "seamless integration, "

  const QualityClause := "high quality, 4k resolution, " + "professional photography. "
  const NotesLabel := "Additional instructions: "

  /** The condition under which a background clause is added and the
      segmentation pre-pass is attempted. */
  predicate WantsBackground(o: Options) {
    o.backgroundChange && o.backgroundType != "none"
  }

  /** The switch over the background type. It has no default case, so a type
      outside the table contributes nothing. */
  function BackgroundFragment(t: string): (r: Option<string>)
    ensures r.Some? <==> KnownBackgroundType(t) && t != "none"
  {
    if t == "studio" then Some(StudioFragment)
    else if t == "outdoor" then Some(OutdoorFragment)
    else if t == "blur" then Some(BlurFragment)
    else if t == "beach" then Some(BeachFragment)
    else if t == "office" then Some(OfficeFragment)
    else if t == "custom" then Some(CustomFragment)
    else None
  }

  function Optional(on: bool, clause: string): string {
    if on then clause else ""
  }

  function BackgroundClause(o: Options): string {
    if WantsBackground(o) then
      match BackgroundFragment(o.backgroundType)
      case Some(fragment) => fragment
      case None => ""
    else ""
  }

  /** A non-empty note is appended verbatim after a fixed label. */
  function NotesClause(notes: string): string {
    if notes == "" then "" else NotesLabel + notes
  }

  /** The prompt for an options record: the specification of BuildPrompt. */
  function PromptOf(o: Options): string {
    Preamble
    + Optional(o.lighting, LightingClause)
    + Optional(o.composition, CompositionClause)
    + Optional(o.colors, ColorsClause)
    + Optional(o.sharpness, SharpnessClause)
    + BackgroundClause(o)
    + QualityClause
    + NotesClause(o.referenceNotes)
  }

  /** The prompt as the client assembles it: one conditional append after another. */
  method BuildPrompt(o: Options) returns (prompt: string)
    ensures prompt == PromptOf(o)
  {
    prompt := Preamble;
    ghost var before := prompt;
    if o.lighting { prompt := prompt + LightingClause; }
    assert prompt == before + Optional(o.lighting, LightingClause);
    before := prompt;
    if o.composition { prompt := prompt + CompositionClause; }
    assert prompt == before + Optional(o.composition, CompositionClause);
    before := prompt;
    if o.colors { prompt := prompt + ColorsClause; }
    assert prompt == before + Optional(o.colors, ColorsClause);
    before := prompt;
    if o.sharpness { prompt := prompt + SharpnessClause; }
    assert prompt == before + Optional(o.sharpness, SharpnessClause);
    before := prompt;
    if o.backgroundChange && o.backgroundType != "none" {
      if o.backgroundType == "studio" {
        prompt := prompt + StudioFragment;
      } else if o.backgroundType == "outdoor" {
        prompt := prompt + OutdoorFragment;
      } else if o.backgroundType == "blur" {
        prompt := prompt + BlurFragment;
      } else if o.backgroundType == "beach" {
        prompt := prompt + BeachFragment;
      } else if o.backgroundType == "office" {
        prompt := prompt + OfficeFragment;
      } else if o.backgroundType == "custom" {
        prompt := prompt + CustomFragment;
      }
    }
    assert prompt == before + BackgroundClause(o);
    prompt := prompt + QualityClause;
    before := prompt;
    if o.referenceNotes != "" {
      prompt := prompt + NotesLabel + o.referenceNotes;
      AppendAssoc(before, NotesLabel, o.referenceNotes);
    }
    assert prompt == before + NotesClause(o.referenceNotes);
  }

  // ---------------------------------------------------------------------
  // What a prompt says, and reading it back.

  /** Everything the prompt conveys: which switches are on, which background
      fragment (named by its type) was added, and the notes. */
  datatype PromptContent = PromptContent(
    lighting: bool,
    composition: bool,
    colors: bool,
    sharpness: bool,
    background: Option<string>,
    notes: string)

  function ContentOf(o: Options): PromptContent {
    PromptContent(
      o.lighting, o.composition, o.colors, o.sharpness,
      if WantsBackground(o) && BackgroundFragment(o.backgroundType).Some? then Some(o.backgroundType) else None,
      o.referenceNotes)
  }

  /** Consumes `clause` from the front of `s` when it is there. */
  function TakeClause(clause: string, s: string): (bool, string) {
    if clause <= s then (true, s[|clause|..]) else (false, s)
  }

  /** Consumes a background fragment from the front of `s`, naming its type. */
  function TakeBackground(s: string): (Option<string>, string) {
    if StudioFragment <= s then (Some("studio"), s[|StudioFragment|..])
    else if OutdoorFragment <= s then (Some("outdoor"), s[|OutdoorFragment|..])
    else if BlurFragment <= s then (Some("blur"), s[|BlurFragment|..])
    else if BeachFragment <= s then (Some("beach"), s[|BeachFragment|..])
    else if OfficeFragment <= s then (Some("office"), s[|OfficeFragment|..])
    else if CustomFragment <= s then (Some("custom"), s[|CustomFragment|..])
    else (None, s)
  }

  /** Reads the end of a prompt: the quality clause, then either nothing or
      the label followed by non-empty notes. Yields the notes. */
  function DecodeEnding(s: string): Option<string> {
    if !(QualityClause <= s) then None
    else
      var rest := s[|QualityClause|..];
      if rest == "" then Some("")
      else if NotesLabel <= rest && |rest| > |NotesLabel| then Some(rest[|NotesLabel|..])
      else None
  }

  /** Reads a prompt from left to right: preamble, the four switch clauses in
      their fixed order, at most one background fragment, and the ending. */
  function DecodePrompt(p: string): Option<PromptContent> {
    if !(Preamble <= p) then None
    else
      var (lighting, p1) := TakeClause(LightingClause, p[|Preamble|..]);
      var (composition, p2) := TakeClause(CompositionClause, p1);
      var (colors, p3) := TakeClause(ColorsClause, p2);
      var (sharpness, p4) := TakeClause(SharpnessClause, p3);
      var (background, p5) := TakeBackground(p4);
      match DecodeEnding(p5)
      case None => None
      case Some(notes) => Some(PromptContent(lighting, composition, colors, sharpness, background, notes))
  }

  // ---------------------------------------------------------------------
  // Telling the clauses apart. Every clause is at least nine characters long
  // and the characters at positions 0, 5 and 8 already differ between any
  // two of them, so no clause can start where another one stands.

  ghost function Lead(s: string): (char, char, char)
    requires |s| >= 9
  {
    (s[0], s[5], s[8])
  }

  lemma ClauseLeads()
    ensures |LightingClause| >= 9 && Lead(LightingClause) == ('i', 'v', 'l')
    ensures |CompositionClause| >= 9 && Lead(CompositionClause) == ('i', 'v', 'c')
    ensures |ColorsClause| >= 9 && Lead(ColorsClause) == ('e', 'c', 'c')
    ensures |SharpnessClause| >= 9 && Lead(SharpnessClause) == ('i', 'a', ' ')
    ensures |StudioFragment| >= 9 && Lead(StudioFragment) == ('w', 'p', 'f')
    ensures |OutdoorFragment| >= 9 && Lead(OutdoorFragment) == ('w', 'b', 'u')
    ensures |BlurFragment| >= 9 && Lead(BlurFragment) == ('w', 's', 't')
    ensures |BeachFragment| >= 9 && Lead(BeachFragment) == ('w', 't', 'p')
    ensures |OfficeFragment| >= 9 && Lead(OfficeFragment) == ('w', 'm', 'e')
    ensures |CustomFragment| >= 9 && Lead(CustomFragment) == ('w', 'r', 'l')
    ensures |QualityClause| >= 9 && Lead(QualityClause) == ('h', 'q', 'l')
  {
  }

  lemma LeadOfConcat(head: string, tail: string)
    requires |head| >= 9
    ensures |head + tail| >= 9 && Lead(head + tail) == Lead(head)
  {
  }

  /** Text whose lead differs from a clause's cannot start with that clause. */
  lemma NotPrefix(clause: string, s: string)
    requires |clause| >= 9 && |s| >= 9 && Lead(clause) != Lead(s)
    ensures !(clause <= s)
  {
  }

  lemma OptionalLead(on: bool, clause: string, rest: string)
    requires |clause| >= 9 && |rest| >= 9
    ensures |Optional(on, clause) + rest| >= 9
    ensures Lead(Optional(on, clause) + rest) == if on then Lead(clause) else Lead(rest)
  {
    if !on {
      assert Optional(on, clause) + rest == rest;
    }
  }

  lemma DropFront(front: string, back: string)
    ensures front <= front + back && (front + back)[|front|..] == back
  {
  }

  lemma AppendAssoc(a: string, b: string, c: string)
    ensures a + b + c == a + (b + c)
  {
  }

  /** The prompt regrouped from the right, the way it is read back. */
  lemma Regroup(p: string, a: string, b: string, c: string, d: string, e: string, f: string, g: string)
    ensures p + a + b + c + d + e + f + g == p + (a + (b + (c + (d + (e + (f + g))))))
    ensures p + a + b + c + d + e + f + g == (p + a + b + c + d + e) + (f + g)
  {
  }

  /** Reading one optional clause back. */
  lemma TakeClauseOf(clause: string, on: bool, rest: string)
    requires |clause| >= 9 && |rest| >= 9
    requires !on ==> Lead(rest) != Lead(clause)
    ensures TakeClause(clause, Optional(on, clause) + rest) == (on, rest)
  {
    if on {
      DropFront(clause, rest);
    } else {
      assert Optional(on, clause) + rest == rest;
      NotPrefix(clause, rest);
    }
  }

  /** Text that opens with the quality clause holds no background fragment. */
  lemma TakeNoBackground(rest: string)
    requires |rest| >= 9 && Lead(rest) == Lead(QualityClause)
    ensures TakeBackground(rest) == (None, rest)
  {
    ClauseLeads();
    NotPrefix(StudioFragment, rest);
    NotPrefix(OutdoorFragment, rest);
    NotPrefix(BlurFragment, rest);
    NotPrefix(BeachFragment, rest);
    NotPrefix(OfficeFragment, rest);
    NotPrefix(CustomFragment, rest);
  }

  /** A fragment is read back as the type it was looked up by. */
  lemma TakeFragment(t: string, rest: string)
    requires BackgroundFragment(t).Some?
    ensures TakeBackground(BackgroundFragment(t).value + rest) == (Some(t), rest)
  {
    ClauseLeads();
    var fragment := BackgroundFragment(t).value;
    var s := fragment + rest;
    DropFront(fragment, rest);
    LeadOfConcat(fragment, rest);
    if t == "studio" {
    } else if t == "outdoor" {
      NotPrefix(StudioFragment, s);
    } else if t == "blur" {
      NotPrefix(StudioFragment, s);
      NotPrefix(OutdoorFragment, s);
    } else if t == "beach" {
      NotPrefix(StudioFragment, s);
      NotPrefix(OutdoorFragment, s);
      NotPrefix(BlurFragment, s);
    } else if t == "office" {
      NotPrefix(StudioFragment, s);
      NotPrefix(OutdoorFragment, s);
      NotPrefix(BlurFragment, s);
      NotPrefix(BeachFragment, s);
    } else {
      NotPrefix(StudioFragment, s);
      NotPrefix(OutdoorFragment, s);
      NotPrefix(BlurFragment, s);
      NotPrefix(BeachFragment, s);
      NotPrefix(OfficeFragment, s);
    }
  }

  /** Reading the background fragment back, in front of text that opens
      with the quality clause. */
  lemma TakeBackgroundOf(o: Options, rest: string)
    requires |rest| >= 9 && Lead(rest) == Lead(QualityClause)
    ensures TakeBackground(BackgroundClause(o) + rest) == (ContentOf(o).background, rest)
  {
    if BackgroundClause(o) == "" {
      assert BackgroundClause(o) + rest == rest;
      TakeNoBackground(rest);
    } else {
      TakeFragment(o.backgroundType, rest);
    }
  }

  /** Whatever follows the four switch slots opens with a background fragment
      ("w") or with the quality clause ("h"). */
  lemma AfterFlagsLead(o: Options, rest: string)
    requires |rest| >= 9 && Lead(rest) == Lead(QualityClause)
    ensures |BackgroundClause(o) + rest| >= 9
    ensures Lead(BackgroundClause(o) + rest).0 in {'w', 'h'}
  {
    ClauseLeads();
    var bg := BackgroundClause(o);
    if bg == "" {
      assert bg + rest == rest;
    } else {
      LeadOfConcat(bg, rest);
    }
  }

  /** The ending gives back the notes it was built from. */
  lemma EndingRoundTrip(notes: string)
    ensures DecodeEnding(QualityClause + NotesClause(notes)) == Some(notes)
  {
    DropFront(QualityClause, NotesClause(notes));
    if notes != "" {
      DropFront(NotesLabel, notes);
    }
  }

  /** Reading a prompt back gives exactly what the options asked it to say. */
  lemma {:induction false} PromptRoundTrip(o: Options)
    ensures DecodePrompt(PromptOf(o)) == Some(ContentOf(o))
  {
    ClauseLeads();
    var bg := BackgroundClause(o);
    var notes := NotesClause(o.referenceNotes);
    var rest := QualityClause + notes;
    var t4 := bg + rest;
    var t3 := Optional(o.sharpness, SharpnessClause) + t4;
    var t2 := Optional(o.colors, ColorsClause) + t3;
    var t1 := Optional(o.composition, CompositionClause) + t2;
    var t0 := Optional(o.lighting, LightingClause) + t1;
    Regroup(Preamble, Optional(o.lighting, LightingClause), Optional(o.composition, CompositionClause),
            Optional(o.colors, ColorsClause), Optional(o.sharpness, SharpnessClause), bg, QualityClause, notes);
    DropFront(Preamble, t0);

    LeadOfConcat(QualityClause, notes);
    AfterFlagsLead(o, rest);
    OptionalLead(o.sharpness, SharpnessClause, t4);
    OptionalLead(o.colors, ColorsClause, t3);
    OptionalLead(o.composition, CompositionClause, t2);
    TakeClauseOf(LightingClause, o.lighting, t1);
    TakeClauseOf(CompositionClause, o.composition, t2);
    TakeClauseOf(ColorsClause, o.colors, t3);
    TakeClauseOf(SharpnessClause, o.sharpness, t4);
    TakeBackgroundOf(o, rest);

    EndingRoundTrip(o.referenceNotes);
  }

  /** Two option records give the same prompt exactly when they ask for the
      same content; in particular the blend intensity and the custom
      background handle never reach the prompt. */
  lemma PromptDeterminedByContent(o1: Options, o2: Options)
    ensures PromptOf(o1) == PromptOf(o2) <==> ContentOf(o1) == ContentOf(o2)
  {
    if PromptOf(o1) == PromptOf(o2) {
      PromptRoundTrip(o1);
      PromptRoundTrip(o2);
    }
    if ContentOf(o1) == ContentOf(o2) {
      assert BackgroundClause(o1) == BackgroundClause(o2);
    }
  }

  predicate EndsWith(s: string, suffix: string) {
    |suffix| <= |s| && s[|s| - |suffix|..] == suffix
  }

  /** The preamble opens every prompt; the quality clause closes it unless
      notes were given, in which case the labelled notes close it. */
  lemma PromptFrame(o: Options)
    ensures Preamble <= PromptOf(o)
    ensures o.referenceNotes == "" ==> EndsWith(PromptOf(o), QualityClause)
    ensures o.referenceNotes != "" ==> EndsWith(PromptOf(o), QualityClause + NotesLabel + o.referenceNotes)
  {
    var a, b, c, d := Optional(o.lighting, LightingClause), Optional(o.composition, CompositionClause),
                      Optional(o.colors, ColorsClause), Optional(o.sharpness, SharpnessClause);
    var bg, notes := BackgroundClause(o), NotesClause(o.referenceNotes);
    Regroup(Preamble, a, b, c, d, bg, QualityClause, notes);
    DropFront(Preamble, a + (b + (c + (d + (bg + (QualityClause + notes))))));
    var head := Preamble + a + b + c + d + bg;
    DropFront(head, QualityClause + notes);
    if o.referenceNotes == "" {
      assert QualityClause + notes == QualityClause;
    } else {
      assert QualityClause + notes == QualityClause + NotesLabel + o.referenceNotes;
    }
  }

  /** No two background types share a fragment. */
  lemma BackgroundFragmentsDistinct(t1: string, t2: string)
    requires BackgroundFragment(t1).Some? && BackgroundFragment(t2).Some?
    ensures BackgroundFragment(t1) == BackgroundFragment(t2) ==> t1 == t2
  {
    ClauseLeads();
  }

  /** With background replacement switched off, or "none" selected, no
      fragment is added and the prompt says no background, whatever type is
      still selected. */
  lemma NoBackgroundClauseWhenOff(o: Options)
    requires !o.backgroundChange || o.backgroundType == "none"
    ensures BackgroundClause(o) == "" && ContentOf(o).background == None
    ensures PromptOf(o) == PromptOf(o.(backgroundChange := false))
  {
  }
}
