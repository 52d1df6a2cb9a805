/** The tempo adjustment of `server/src/services/musicService.ts`
    (`getTempoForMood`): a mood tempo is scaled by the ratio to the track's
    initial tempo and back, rounded with `Math.round`, and clamped to
    [30, 200] beats per minute. The rest of that file is database and file
    I/O. */
module MusicService {
  import opened Common
  import MoodService

  /** The columns of a music row the tempo adjustment reads. */
  datatype MusicRow = MusicRow(id: int, initialTempo: int)

  const MinTempo: int := 30
  const MaxTempo: int := 200

  /** A tempo as JavaScript computes it: a whole number of beats per minute,
      or `NaN`. */
  datatype Tempo = Bpm(bpm: int) | NotANumber

  /** `findMusicById`: the row with the id. */
  function FindMusic(tracks: seq<MusicRow>, id: int): (r: Option<MusicRow>)
    ensures r.Some? ==> r.value in tracks && r.value.id == id
    ensures r.None? <==> forall i :: 0 <= i < |tracks| ==> tracks[i].id != id
  {
    if tracks == [] then None
    else if tracks[0].id == id then Some(tracks[0])
    else FindMusic(tracks[1..], id)
  }

  /** `Math.max(30, Math.min(200, t))`. */
  function Clamp(t: int): (r: int)
    ensures MinTempo <= r <= MaxTempo
    ensures MinTempo <= t <= MaxTempo ==> r == t
    ensures t < MinTempo ==> r == MinTempo
    ensures t > MaxTempo ==> r == MaxTempo
  {
    if t < MinTempo then MinTempo else if t > MaxTempo then MaxTempo else t
  }

  /** `getTempoForMood(musicId, moodTempo)`. A missing track is a 404. A
      track with initial tempo 0 divides by zero, and `0 * Infinity` and
      `0 / 0` are both `NaN`, which `Math.round`, `Math.min` and `Math.max`
      pass on. */
  function GetTempoForMood(tracks: seq<MusicRow>, musicId: int, moodTempo: real): (r: Outcome<Tempo>)
    ensures FindMusic(tracks, musicId).None? <==> r == Fail(404, "Music not found")
    ensures r.Ok? && r.value.Bpm? ==> MinTempo <= r.value.bpm <= MaxTempo
    ensures r == Ok(NotANumber) <==>
      FindMusic(tracks, musicId).Some? && FindMusic(tracks, musicId).value.initialTempo == 0
  {
    match FindMusic(tracks, musicId)
    case None => Fail(404, "Music not found")
    case Some(track) =>
      if track.initialTempo == 0 then Ok(NotANumber)
      else
        var ratio := moodTempo / track.initialTempo as real;
        Ok(Bpm(Clamp(MoodService.Round(track.initialTempo as real * ratio))))
  }

  /** The ratio cancels: for any track with a non-zero initial tempo the
      result is the mood tempo itself, rounded and clamped. */
  lemma RatioCancels(tracks: seq<MusicRow>, musicId: int, moodTempo: real)
    requires FindMusic(tracks, musicId).Some? && FindMusic(tracks, musicId).value.initialTempo != 0
    ensures GetTempoForMood(tracks, musicId, moodTempo) == Ok(Bpm(Clamp(MoodService.Round(moodTempo))))
  {
    var t := FindMusic(tracks, musicId).value.initialTempo as real;
    assert t * (moodTempo / t) == moodTempo;
  }

  /** A mood tempo below 30 gives 30, and one above 200 gives 200. */
  lemma OutOfRangeIsClamped(tracks: seq<MusicRow>, musicId: int, moodTempo: real)
    requires FindMusic(tracks, musicId).Some? && FindMusic(tracks, musicId).value.initialTempo != 0
    ensures moodTempo < MinTempo as real ==> GetTempoForMood(tracks, musicId, moodTempo) == Ok(Bpm(MinTempo))
    ensures moodTempo > MaxTempo as real ==> GetTempoForMood(tracks, musicId, moodTempo) == Ok(Bpm(MaxTempo))
  {
    RatioCancels(tracks, musicId, moodTempo);
  }

  /** A whole mood tempo within [30, 200] comes back unchanged. */
  lemma InRangeIsKept(tracks: seq<MusicRow>, musicId: int, moodTempo: int)
    requires FindMusic(tracks, musicId).Some? && FindMusic(tracks, musicId).value.initialTempo != 0
    requires MinTempo <= moodTempo <= MaxTempo
    ensures GetTempoForMood(tracks, musicId, moodTempo as real) == Ok(Bpm(moodTempo))
  {
    RatioCancels(tracks, musicId, moodTempo as real);
    MoodService.RoundInteger(moodTempo);
  }
}
