/** The music panel: the band catalogue, the track counter that "next track"
    advances, the play button's gating, and the tones each band's loop
    schedules on the audio clock. `Math.sin` enters as a parameter. */
module BandSelector {
  import opened Options
  import opened Sequences
  import opened Reals

  datatype BandEntry = BandEntry(name: string, color: string, tracks: seq<string>)

  /** The panel's bands, in display order. */
  const Catalogue: seq<BandEntry> := [
    BandEntry("Penumbra", "#00FFFF", ["Shadow Realm", "Void Walker", "Eclipse Dreams"]),
    BandEntry("Veridian", "#6A0DAD", ["Neon Nights", "Cyber Flow", "Digital Pulse"]),
    BandEntry("Mild Fever", "#FF1493", ["Fever Dream", "Synthetic Love", "Electric Thoughts"])
  ]

  /** `bands.find(b => b.name === name)`, as the index of the band it finds. */
  function FindBand(bands: seq<BandEntry>, name: string): (r: Option<nat>)
    ensures r.Some? ==> r.value < |bands| && bands[r.value].name == name
    ensures r.Some? ==> forall i :: 0 <= i < r.value ==> bands[i].name != name
    ensures r.None? <==> forall i :: 0 <= i < |bands| ==> bands[i].name != name
  {
    if bands == [] then None
    else if bands[0].name == name then Some(0)
    else
      match FindBand(bands[1..], name)
      case None => None
      case Some(i) => Some(i + 1)
  }

  /** JavaScript truthiness of the `selectedBand` prop: null and "" are falsy. */
  predicate Chosen(selected: Option<string>) {
    selected.Some? && selected.value != ""
  }

  /** `nextTrack`'s update of `currentTrack`: one step round the chosen band's
      tracks, and no change without a chosen band of the catalogue. */
  function NextTrack(selected: Option<string>, track: nat): (r: nat)
    ensures !Chosen(selected) || FindBand(Catalogue, selected.value).None? ==> r == track
    ensures Chosen(selected) && FindBand(Catalogue, selected.value).Some? ==> r == (track + 1) % 3
  {
    if Chosen(selected) then
      match FindBand(Catalogue, selected.value)
      case None => track
      case Some(b) => (track + 1) % |Catalogue[b].tracks|
    else track
  }

  /** The counter stays among the three tracks and comes back after three steps. */
  lemma TrackCycle(selected: Option<string>, track: nat)
    requires track < 3
    ensures NextTrack(selected, track) < 3
    ensures NextTrack(selected, NextTrack(selected, NextTrack(selected, track))) == track
  {
    if Chosen(selected) && FindBand(Catalogue, selected.value).Some? {
      var a := NextTrack(selected, track);
      var b := NextTrack(selected, a);
      Wrap(track);
      Wrap(a);
      Wrap(b);
    }
  }

  /** Adding one modulo three, spelled out. */
  lemma Wrap(t: nat)
    requires t < 3
    ensures (t + 1) % 3 == if t == 2 then 0 else t + 1
  {
  }

  /** The three loop patterns, selected by band name. */
  datatype Pattern = Penumbra | Veridian | MildFever

  function PatternOf(name: string): (p: Option<Pattern>)
    ensures p.Some? <==> name in {"Penumbra", "Veridian", "Mild Fever"}
  {
    if name == "Penumbra" then Some(Penumbra)
    else if name == "Veridian" then Some(Veridian)
    else if name == "Mild Fever" then Some(MildFever)
    else None
  }

  /** The four base frequencies of each pattern, in Hz. */
  function Voices(p: Pattern): (fs: seq<real>)
    ensures |fs| == 4
  {
    match p
    case Penumbra => [110.0, 146.83, 220.0, 293.66]
    case Veridian => [261.63, 329.63, 392.0, 523.25]
    case MildFever => [174.61, 207.65, 246.94, 311.13]
  }

  /** How many beats each voice's loop runs. */
  function Beats(p: Pattern): nat {
    match p
    case Penumbra => 8
    case Veridian => 16
    case MildFever => 12
  }

  /** Whether the loop plays a tone on `beat`: Veridian only on the first and
      third beat of each group of four. */
  predicate Sounds(p: Pattern, beat: nat)
    ensures Sounds(p, beat) <==> p != Veridian || beat % 2 == 0
  {
    p != Veridian || beat % 4 == 0 || beat % 4 == 2
  }

  /** Tone length in seconds. */
  function Duration(p: Pattern): real {
    match p
    case Penumbra => 0.5
    case Veridian => 0.2
    case MildFever => 0.3
  }

  /** Seconds between beats, and between the voices' first tones. */
  function BeatStep(p: Pattern): real {
    match p
    case Penumbra => 0.5
    case Veridian => 0.25
    case MildFever => 0.4
  }

  function VoiceStep(p: Pattern): real {
    match p
    case Penumbra => 0.1
    case Veridian => 0.05
    case MildFever => 0.08
  }

  /** The oscillator frequency on `beat`: Penumbra wavers by 10% and Mild Fever
      by 30% with `sin` of the beat; Veridian holds the base frequency. */
  function Pitch(p: Pattern, base: real, beat: nat, sine: real -> real): (f: real)
    ensures p == Veridian ==> f == base
    ensures 0.0 <= base && (forall x :: -1.0 <= sine(x) <= 1.0) ==> 0.7 * base <= f <= 1.3 * base
  {
    match p
    case Penumbra => var s := sine(beat as real * 0.5); Waver(base, s, 0.1); base * (1.0 + s * 0.1)
    case Veridian => base
    case MildFever => var s := sine(beat as real * 0.8); Waver(base, s, 0.3); base * (1.0 + s * 0.3)
  }

  /** A sine of depth at most 0.3 moves a non-negative frequency by at most 30%. */
  lemma Waver(base: real, s: real, depth: real)
    requires 0.0 <= depth <= 0.3
    ensures 0.0 <= base && -1.0 <= s <= 1.0 ==> 0.7 * base <= base * (1.0 + s * depth) <= 1.3 * base
  {
    if 0.0 <= base && -1.0 <= s <= 1.0 {
      NonNegative(1.0 - s, depth);
      NonNegative(1.0 + s, depth);
      NonNegative(base, 0.3 - s * depth);
      NonNegative(base, 0.3 + s * depth);
    }
  }

  /** One `createTone(frequency, duration, startTime)` call, with the voice and
      beat that produced it. */
  datatype Tone = Tone(voice: nat, beat: nat, frequency: real, duration: real, start: real)

  function Planned(p: Pattern, now: real, sine: real -> real, voice: nat, beat: nat): Tone
    requires voice < 4
  {
    Tone(voice, beat, Pitch(p, Voices(p)[voice], beat, sine), Duration(p),
         now + beat as real * BeatStep(p) + voice as real * VoiceStep(p))
  }

  /** The tones of one voice for the beats below `n`, in beat order. */
  function VoiceTones(p: Pattern, now: real, sine: real -> real, voice: nat, n: nat): seq<Tone>
    requires voice < 4
  {
    if n == 0 then []
    else VoiceTones(p, now, sine, voice, n - 1) + (if Sounds(p, n - 1) then [Planned(p, now, sine, voice, n - 1)] else [])
  }

  /** The tones of the voices below `k`, voice after voice. */
  function ScheduleBelow(p: Pattern, now: real, sine: real -> real, k: nat): seq<Tone>
    requires k <= 4
  {
    if k == 0 then [] else ScheduleBelow(p, now, sine, k - 1) + VoiceTones(p, now, sine, k - 1, Beats(p))
  }

  /** Everything a pattern's loop schedules, starting at audio time `now`. */
  function Schedule(p: Pattern, now: real, sine: real -> real): (r: seq<Tone>)
    ensures |r| == 4 * SoundingBeats(p, Beats(p))
  {
    ScheduleCount(p, now, sine, 4);
    ScheduleBelow(p, now, sine, 4)
  }

  /** The tones `generateAudioLoop` schedules for a band name: none for a name
      matching no pattern. */
  function LoopTones(name: string, now: real, sine: real -> real): (r: seq<Tone>)
    ensures PatternOf(name).None? ==> r == []
    ensures PatternOf(name).Some? ==> |r| == if PatternOf(name).value == MildFever then 48 else 32
  {
    ScheduleSizes(now, sine);
    match PatternOf(name)
    case None => []
    case Some(p) => Schedule(p, now, sine)
  }

  /** Every tone of one voice is a sounding beat below `n`, planned at its
      beat's time. */
  lemma {:induction false} VoiceSound(p: Pattern, now: real, sine: real -> real, voice: nat, n: nat)
    requires voice < 4
    ensures forall t :: t in VoiceTones(p, now, sine, voice, n) ==>
              t.beat < n && Sounds(p, t.beat) && t == Planned(p, now, sine, voice, t.beat)
  {
    if n > 0 {
      VoiceSound(p, now, sine, voice, n - 1);
    }
  }

  /** Every sounding beat below `n` has its tone in the voice. */
  lemma {:induction false} VoiceComplete(p: Pattern, now: real, sine: real -> real, voice: nat, n: nat, beat: nat)
    requires voice < 4 && beat < n && Sounds(p, beat)
    ensures Planned(p, now, sine, voice, beat) in VoiceTones(p, now, sine, voice, n)
  {
    if beat < n - 1 {
      VoiceComplete(p, now, sine, voice, n - 1, beat);
    }
  }

  /** Sounding beats below `n`: all of them, except for Veridian, which plays
      two of every four. */
  function SoundingBeats(p: Pattern, n: nat): nat {
    if p != Veridian then n
    else n / 4 * 2 + (if n % 4 == 0 then 0 else if n % 4 <= 2 then 1 else 2)
  }

  lemma {:induction false} VoiceCount(p: Pattern, now: real, sine: real -> real, voice: nat, n: nat)
    requires voice < 4
    ensures |VoiceTones(p, now, sine, voice, n)| == SoundingBeats(p, n)
  {
    if n > 0 {
      VoiceCount(p, now, sine, voice, n - 1);
    }
  }

  /** Each tone of the schedule belongs to one of the four voices and a
      sounding beat of the loop, lasts the pattern's duration and starts at
      `now + beat * beatStep + voice * voiceStep`. */
  lemma {:induction false} ScheduleSound(p: Pattern, now: real, sine: real -> real, k: nat)
    requires k <= 4
    ensures forall t :: t in ScheduleBelow(p, now, sine, k) ==>
              && t.voice < k && t.beat < Beats(p) && Sounds(p, t.beat)
              && t.duration == Duration(p)
              && t.start == now + t.beat as real * BeatStep(p) + t.voice as real * VoiceStep(p)
              && t.frequency == Pitch(p, Voices(p)[t.voice], t.beat, sine)
  {
    if k > 0 {
      ScheduleSound(p, now, sine, k - 1);
      VoiceSound(p, now, sine, k - 1, Beats(p));
    }
  }

  /** Every voice's tone on every sounding beat is scheduled. */
  lemma {:induction false} ScheduleComplete(p: Pattern, now: real, sine: real -> real, k: nat, voice: nat, beat: nat)
    requires k <= 4 && voice < k && beat < Beats(p) && Sounds(p, beat)
    ensures Planned(p, now, sine, voice, beat) in ScheduleBelow(p, now, sine, k)
  {
    if voice < k - 1 {
      ScheduleComplete(p, now, sine, k - 1, voice, beat);
    } else {
      VoiceComplete(p, now, sine, voice, Beats(p), beat);
    }
  }

  lemma ScheduleCount(p: Pattern, now: real, sine: real -> real, k: nat)
    requires k <= 4
    ensures |ScheduleBelow(p, now, sine, k)| == k * SoundingBeats(p, Beats(p))
  {
    var n, i := SoundingBeats(p, Beats(p)), 0;
    while i < k
      invariant i <= k && |ScheduleBelow(p, now, sine, i)| == i * n
    {
      VoiceCount(p, now, sine, i, Beats(p));
      i := i + 1;
    }
  }

  /** Penumbra and Veridian schedule 32 tones, Mild Fever 48 (Veridian 8 per
      voice out of 16 beats). */
  lemma ScheduleSizes(now: real, sine: real -> real)
    ensures |Schedule(Penumbra, now, sine)| == 32
    ensures |Schedule(Veridian, now, sine)| == 32
    ensures |Schedule(MildFever, now, sine)| == 48
  {
    ScheduleCount(Penumbra, now, sine, 4);
    ScheduleCount(Veridian, now, sine, 4);
    ScheduleCount(MildFever, now, sine, 4);
  }

  /** `generateAudioLoop`'s tone calls for band `name` at audio time `now`: for
      each base frequency in turn, each beat of its loop. */
  method GenerateLoop(name: string, now: real, sine: real -> real) returns (tones: seq<Tone>)
    ensures tones == LoopTones(name, now, sine)
    ensures PatternOf(name).None? ==> tones == []
  {
    tones := [];
    var pattern := PatternOf(name);
    if pattern.None? {
      return;
    }
    var p := pattern.value;
    var freqs := Voices(p);
    for i := 0 to |freqs|
      invariant tones == ScheduleBelow(p, now, sine, i)
    {
      for beat := 0 to Beats(p)
        invariant tones == ScheduleBelow(p, now, sine, i) + VoiceTones(p, now, sine, i, beat)
      {
        ghost var before := tones;
        if Sounds(p, beat) {
          var start := now + beat as real * BeatStep(p) + i as real * VoiceStep(p);
          tones := tones + [Tone(i, beat, Pitch(p, freqs[i], beat, sine), Duration(p), start)];
        }
        AppendTone(p, now, sine, i, beat, before, tones);
      }
    }
  }

  /** One beat of the inner loop extends the voice by its tone, if it sounds. */
  lemma AppendTone(p: Pattern, now: real, sine: real -> real, i: nat, beat: nat, before: seq<Tone>, after: seq<Tone>)
    requires i < 4
    requires before == ScheduleBelow(p, now, sine, i) + VoiceTones(p, now, sine, i, beat)
    requires after == before + (if Sounds(p, beat) then [Planned(p, now, sine, i, beat)] else [])
    ensures after == ScheduleBelow(p, now, sine, i) + VoiceTones(p, now, sine, i, beat + 1)
  {
    var added := if Sounds(p, beat) then [Planned(p, now, sine, i, beat)] else [];
    assert VoiceTones(p, now, sine, i, beat + 1) == VoiceTones(p, now, sine, i, beat) + added;
    Append3(ScheduleBelow(p, now, sine, i), VoiceTones(p, now, sine, i, beat), added);
  }

  /** What the play button does. */
  datatype PlayOutcome =
    | Ignored                     // no band chosen
    | Paused                      // `onPlayToggle(false)`
    | Started(tones: seq<Tone>)   // loop scheduled, `onPlayToggle(true)`, stop timer set
    | Unavailable                 // the audio context could not be created

  /** `handlePlay`: ignored without a chosen band, a pause while playing, and
      otherwise the chosen band's loop when the audio context can be created. */
  method HandlePlay(selected: Option<string>, isPlaying: bool, audioAvailable: bool, now: real, sine: real -> real)
    returns (outcome: PlayOutcome)
    ensures !Chosen(selected) ==> outcome == Ignored
    ensures Chosen(selected) && isPlaying ==> outcome == Paused
    ensures Chosen(selected) && !isPlaying && !audioAvailable ==> outcome == Unavailable
    ensures Chosen(selected) && !isPlaying && audioAvailable ==> outcome == Started(LoopTones(selected.value, now, sine))
  {
    if !Chosen(selected) {
      return Ignored;
    }
    if isPlaying {
      return Paused;
    }
    if !audioAvailable {
      return Unavailable;
    }
    var tones := GenerateLoop(selected.value, now, sine);
    outcome := Started(tones);
  }

  /** The panel's own state: the current track index. */
  class Panel {
    var currentTrack: nat

    constructor ()
      ensures currentTrack == 0
    {
      currentTrack := 0;
    }

    method Next(selected: Option<string>)
      modifies this
      ensures currentTrack == NextTrack(selected, old(currentTrack))
    {
      currentTrack := NextTrack(selected, currentTrack);
    }
  }
}
