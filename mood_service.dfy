/** Mood resolution, `calculateMoodTrigger` of
    `server/src/services/moodService.ts`: the breakpoint in force at a
    reading position, the mood it names, and the tempo for the listener's
    genre scaled by their sensitivity. The database lookups become tables
    passed in. */
module MoodService {
  import opened Common
  import opened Text
  import opened MoodMap

  datatype MoodReference = MoodReference(
    id: int,
    moodName: string,
    tempoElectronic: int,
    tempoClassic: int,
    tempoLofi: int,
    tempoCustom: int)

  datatype Background = Background(id: int, moodId: int, backgroundPath: string)

  datatype MoodTrigger = MoodTrigger(
    mood: MoodReference,
    background: Option<Background>,
    tempo: int,
    transitionType: string)

  /** The base tempo for a genre, matched after lowercasing. `custom` falls
      back to the electronic tempo when its own is 0; an unknown genre gets
      the electronic tempo. */
  function BaseTempo(mood: MoodReference, genre: string): (t: int)
    ensures Lower(genre) == "classic" ==> t == mood.tempoClassic
    ensures Lower(genre) == "lofi" ==> t == mood.tempoLofi
    ensures Lower(genre) == "custom" ==>
      t == if mood.tempoCustom != 0 then mood.tempoCustom else mood.tempoElectronic
    ensures Lower(genre) !in ["classic", "lofi", "custom"] ==> t == mood.tempoElectronic
  {
    var g := Lower(genre);
    if g == "electronic" then mood.tempoElectronic
    else if g == "classic" then mood.tempoClassic
    else if g == "lofi" then mood.tempoLofi
    else if g == "custom" then (if mood.tempoCustom != 0 then mood.tempoCustom else mood.tempoElectronic)
    else mood.tempoElectronic
  }

  /** Genre names are matched regardless of case; `classical` is not
      `classic` and gets the electronic tempo. */
  lemma GenreExamples(mood: MoodReference)
    ensures BaseTempo(mood, "LoFi") == mood.tempoLofi
    ensures BaseTempo(mood, "classical") == mood.tempoElectronic
  {
    assert Lower("LoFi") == "lofi";
    LowerKeepsLowerCase("classical");
  }

  /** `Math.max(0.1, Math.min(2.0, s))`. */
  function ClampSensitivity(s: real): (r: real)
    ensures 0.1 <= r <= 2.0
    ensures 0.1 <= s <= 2.0 ==> r == s
    ensures s > 2.0 ==> r == 2.0
    ensures s < 0.1 ==> r == 0.1
  {
    if s > 2.0 then 2.0 else if s < 0.1 then 0.1 else s
  }

  /** `Math.round`: the nearest integer, halves rounded up. */
  function Round(x: real): (r: int)
    ensures r as real - 0.5 <= x < r as real + 0.5
  {
    (x + 0.5).Floor
  }

  lemma RoundInteger(n: int)
    ensures Round(n as real) == n
  {
  }

  /** The adjusted tempo: the base tempo times the clamped sensitivity,
      rounded, with no clamp afterwards. */
  function AdjustedTempo(base: int, sensitivity: real): (t: int)
    ensures (t as real - 0.5) <= base as real * ClampSensitivity(sensitivity) < t as real + 0.5
  {
    Round(base as real * ClampSensitivity(sensitivity))
  }

  /** Sensitivity 5.0 behaves like 2.0 and 0 like 0.1; 140 at 1.5 gives 210,
      above any music tempo bound; sensitivity 1.0 keeps the base tempo. */
  lemma TempoExamples(base: int)
    ensures AdjustedTempo(base, 5.0) == AdjustedTempo(base, 2.0)
    ensures AdjustedTempo(base, 0.0) == AdjustedTempo(base, 0.1)
    ensures AdjustedTempo(140, 1.5) == 210
    ensures AdjustedTempo(base, 1.0) == base
  {
    RoundInteger(210);
    assert 140 as real * 1.5 == 210 as real;
    RoundInteger(base);
  }

  function FindMood(moods: seq<MoodReference>, id: int): (r: Option<MoodReference>)
    ensures r.Some? ==> r.value in moods && r.value.id == id
    ensures r.None? <==> forall i :: 0 <= i < |moods| ==> moods[i].id != id
  {
    if moods == [] then None
    else if moods[0].id == id then Some(moods[0])
    else FindMood(moods[1..], id)
  }

  function FindBackground(backgrounds: seq<Background>, id: int): (r: Option<Background>)
    ensures r.Some? ==> r.value in backgrounds && r.value.id == id
    ensures r.None? <==> forall i :: 0 <= i < |backgrounds| ==> backgrounds[i].id != id
  {
    if backgrounds == [] then None
    else if backgrounds[0].id == id then Some(backgrounds[0])
    else FindBackground(backgrounds[1..], id)
  }

  /** A truthy optional id: present and not 0. */
  predicate TruthyId(id: Option<int>) { id.Some? && id.value != 0 }

  /** `calculateMoodTrigger(presetId, chapter, pageFraction, musicGenre,
      moodSensitivity)`. An absent genre is `'electronic'` and an absent
      sensitivity 1.0. */
  function CalculateMoodTrigger(
    rows: seq<MoodMapRow>, moods: seq<MoodReference>, backgrounds: seq<Background>,
    presetId: int, chapter: real, pageFraction: real,
    musicGenre: Option<string>, moodSensitivity: Option<real>): (r: Option<MoodTrigger>)
    ensures var entry := FindMoodMapForProgress(rows, presetId, chapter, pageFraction);
      r.Some? <==> entry.Some? && TruthyId(entry.value.moodId) && FindMood(moods, entry.value.moodId.value).Some?
    ensures var entry := FindMoodMapForProgress(rows, presetId, chapter, pageFraction);
      r.Some? ==>
        r.value.mood == FindMood(moods, entry.value.moodId.value).value &&
        r.value.transitionType == entry.value.transitionType &&
        r.value.tempo == AdjustedTempo(BaseTempo(r.value.mood, musicGenre.GetOr("electronic")), moodSensitivity.GetOr(1.0)) &&
        r.value.background ==
          (if TruthyId(entry.value.backgroundId) then FindBackground(backgrounds, entry.value.backgroundId.value) else None)
  {
    var entry := FindMoodMapForProgress(rows, presetId, chapter, pageFraction);
    if entry.None? || !TruthyId(entry.value.moodId) then None
    else
      match FindMood(moods, entry.value.moodId.value)
      case None => None
      case Some(mood) =>
        var background := if TruthyId(entry.value.backgroundId) then FindBackground(backgrounds, entry.value.backgroundId.value) else None;
        var base := BaseTempo(mood, musicGenre.GetOr("electronic"));
        Some(MoodTrigger(mood, background, AdjustedTempo(base, moodSensitivity.GetOr(1.0)), entry.value.transitionType))
  }

  /** Genre `electronic` selects the electronic tempo. */
  lemma ElectronicBase(mood: MoodReference)
    ensures BaseTempo(mood, "electronic") == mood.tempoElectronic
  {
    LowerElectronic();
  }

  lemma LowerElectronic()
    ensures Lower("electronic") == "electronic"
  {
    LowerKeepsLowerCase("electronic");
  }

  /** The default genre and sensitivity give the electronic tempo. */
  lemma DefaultTempo(mood: MoodReference)
    ensures AdjustedTempo(BaseTempo(mood, "electronic"), 1.0) == mood.tempoElectronic
  {
    var e := mood.tempoElectronic;
    ElectronicBase(mood);
    assert e as real * ClampSensitivity(1.0) == e as real;
    RoundInteger(e);
  }

  /** With the defaults (electronic, sensitivity 1.0) the tempo is the
      mood's electronic tempo. */
  lemma DefaultsGiveElectronicTempo(rows: seq<MoodMapRow>, moods: seq<MoodReference>, backgrounds: seq<Background>,
    presetId: int, chapter: real, pageFraction: real)
    requires CalculateMoodTrigger(rows, moods, backgrounds, presetId, chapter, pageFraction, None, None).Some?
    ensures var t := CalculateMoodTrigger(rows, moods, backgrounds, presetId, chapter, pageFraction, None, None).value;
      t.tempo == t.mood.tempoElectronic
  {
    var t := CalculateMoodTrigger(rows, moods, backgrounds, presetId, chapter, pageFraction, None, None).value;
    DefaultTempo(t.mood);
  }
}
