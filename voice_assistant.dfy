/**
 * The volume-triggered assistant of voice_assistant.py: every chunk read from
 * the microphone is classified by its mean absolute amplitude, an utterance
 * runs from the first loud chunk until more than SILENCE_TIMEOUT seconds have
 * passed since the last loud one, utterances shorter than 0.5 s are dropped,
 * and a kept utterance is written to output/audio_<n>.wav and handed to the
 * ASR -> LLM -> TTS pipeline while the busy flag keeps the listener deaf.
 *
 * The listener is a class with the source's fields; `State()` views them as a
 * `Listener` value, and the pure functions `AfterSave` and `AfterChunk` are
 * the specifications of the methods `SaveAudio` and `ListenerIteration`,
 * over which the trace lemmas are proved.
 */
module VoiceAssistant {
  import opened SpeechCommon

  // ---------------------------------------------------------------------
  // Config
  // ---------------------------------------------------------------------

  const OUTPUT_DIR: string := "./output"
  const AUDIO_RATE: nat := 48000
  const AUDIO_CHANNELS: nat := 1
  const SAMPLE_WIDTH: nat := 2
  const CHUNK: nat := 4096
  const MIN_VOLUME: nat := 500
  /** Seconds of quiet after the last loud chunk that end an utterance. */
  const SILENCE_TIMEOUT: real := 1.0
  /** Utterances shorter than this many seconds are not saved. */
  const MIN_DURATION: real := 0.5
  const VOICE: string := "zh-CN-XiaoyiNeural"

  /** One read of the stream, as the samples `np.frombuffer(data, np.int16)` yields. */
  type Chunk = seq<Sample>

  type File = Artifact<Chunk>

  // ---------------------------------------------------------------------
  // calculate_volume
  // ---------------------------------------------------------------------

  /** numpy's `abs` on an `int16`: the absolute value, except that -32768 stays -32768. */
  function NumpyAbs(x: Sample): (r: int)
    ensures x != -32768 ==> r == (if x < 0 then -x else x)
    ensures x == -32768 ==> r == -32768
  {
    var y := x as int;
    if y == -32768 then -32768 else if y < 0 then -y else y
  }

  function AbsSumAsWritten(c: Chunk): int {
    if c == [] then 0 else NumpyAbs(c[0]) + AbsSumAsWritten(c[1..])
  }

  /** `calculate_volume` as written: `np.mean(np.abs(audio_array))`, 0 for an empty chunk. */
  function VolumeAsWritten(c: Chunk): real {
    if |c| == 0 then 0.0 else AbsSumAsWritten(c) as real / |c| as real
  }

  function Abs(x: Sample): nat {
    if x < 0 then -(x as int) else x as int
  }

  function AbsSum(c: Chunk): nat {
    if c == [] then 0 else Abs(c[0]) + AbsSum(c[1..])
  }

  /** The mean absolute amplitude that `calculate_volume` is meant to compute. */
  function Volume(c: Chunk): real {
    if |c| == 0 then 0.0 else AbsSum(c) as real / |c| as real
  }

  /** A chunk louder than MIN_VOLUME, stated without division. */
  predicate Loud(c: Chunk) {
    |c| > 0 && AbsSum(c) > MIN_VOLUME * |c|
  }

  /** `volume > MIN_VOLUME` holds exactly for the loud chunks; an empty chunk is never loud. */
  lemma LoudIffVolumeAbove(c: Chunk)
    ensures Volume(c) > MIN_VOLUME as real <==> Loud(c)
  {
    if |c| > 0 {
      DivAbove(AbsSum(c) as real, |c| as real, MIN_VOLUME as real);
    }
  }

  lemma DivAbove(x: real, n: real, t: real)
    requires n > 0.0
    ensures x / n > t <==> x > t * n
  {
    var q := x / n;
    assert q * n == x;
    if q > t {
      assert q * n > t * n;
    } else {
      assert q * n <= t * n;
    }
  }

  /** Where no sample is -32768 the code as written computes the intended volume. */
  lemma {:induction false} AbsSumAsWrittenAgrees(c: Chunk)
    requires forall i :: 0 <= i < |c| ==> c[i] != -32768
    ensures AbsSumAsWritten(c) == AbsSum(c)
    decreases |c|
  {
    if c != [] {
      AbsSumAsWrittenAgrees(c[1..]);
    }
  }

  lemma {:induction false} AbsSumAsWrittenOfMinimum(n: nat)
    ensures AbsSumAsWritten(seq(n, _ => -32768 as Sample)) == -32768 * n
    ensures AbsSum(seq(n, _ => -32768 as Sample)) == 32768 * n
  {
    if n > 0 {
      var c := seq(n, _ => -32768 as Sample);
      assert c[1..] == seq(n - 1, _ => -32768 as Sample);
      AbsSumAsWrittenOfMinimum(n - 1);
    }
  }

  /**
   * The numpy wrap-around makes a chunk of full-scale negative samples read as
   * volume -32768, so the loudest possible chunk does not trigger recording.
   */
  lemma ClippedChunkReadsSilent()
    ensures VolumeAsWritten(seq(CHUNK, _ => -32768 as Sample)) == -32768.0
    ensures VolumeAsWritten(seq(CHUNK, _ => -32768 as Sample)) <= MIN_VOLUME as real
    ensures Volume(seq(CHUNK, _ => -32768 as Sample)) == 32768.0
    ensures Loud(seq(CHUNK, _ => -32768 as Sample))
  {
    AbsSumAsWrittenOfMinimum(CHUNK);
  }

  // ---------------------------------------------------------------------
  // Files
  // ---------------------------------------------------------------------

  /**
   * The files the assistant writes, by the counter value in their name. The
   * model keeps files by name; `PathOf` renders the name as the source
   * spells the path, and distinct names are distinct paths.
   */
  datatype FileName = AudioFile(n: nat) | TtsFile(n: nat)

  function PathOf(f: FileName): string {
    match f
    // f"{OUTPUT_DIR}/audio_{n}.wav"
    case AudioFile(n) => OUTPUT_DIR + "/audio_" + NatToString(n) + ".wav"
    // os.path.join(OUTPUT_DIR, f"temp_tts_{n}.mp3")
    case TtsFile(n) => OUTPUT_DIR + "/temp_tts_" + NatToString(n) + ".mp3"
  }

  lemma PathOfInjective(a: FileName, b: FileName)
    ensures PathOf(a) == PathOf(b) <==> a == b
  {
    if a.AudioFile? != b.AudioFile? {
      PathOfKindsDiffer(a, b);
    } else if PathOf(a) == PathOf(b) {
      if a.AudioFile? {
        CounterNameInjective(OUTPUT_DIR + "/audio_", ".wav", a.n, b.n);
      } else {
        CounterNameInjective(OUTPUT_DIR + "/temp_tts_", ".mp3", a.n, b.n);
      }
    }
  }

  /** A recording's path and a speech file's path differ right after the directory. */
  lemma PathOfKindsDiffer(a: FileName, b: FileName)
    requires a.AudioFile? != b.AudioFile?
    ensures PathOf(a) != PathOf(b)
  {
    assert PathOf(a)[9] != PathOf(b)[9];
  }

  // ---------------------------------------------------------------------
  // save_audio
  // ---------------------------------------------------------------------

  /** `(n * CHUNK) / AUDIO_RATE`: the seconds of audio in n chunks. */
  function Duration(n: nat): real {
    (n * CHUNK) as real / AUDIO_RATE as real
  }

  /** The 0.5 s filter drops utterances of at most five chunks (5 chunks are 0.427 s, 6 are 0.512 s). */
  lemma TooShortIff(n: nat)
    ensures Duration(n) < MIN_DURATION <==> n <= 5
  {
    assert Duration(n) * 48000.0 == (n * 4096) as real;
  }

  /** The listener's fields. */
  datatype Listener = Listener(
    isBusy: bool,
    recording: bool,
    frames: seq<Chunk>,
    lastSpeechTime: real,
    audioFileCount: nat,
    files: map<FileName, File>)

  const Initial := Listener(false, false, [], 0.0, 0, map[])

  /** The wave file `save_audio` writes for the given frames. */
  function WavOf(frames: seq<Chunk>): File {
    Wav(AUDIO_CHANNELS, SAMPLE_WIDTH, AUDIO_RATE, frames)
  }

  /** `save_audio`: the new state and the returned path. */
  function AfterSave(s: Listener): (Listener, Option<FileName>) {
    if s.frames == [] then
      (s, None)
    else if Duration(|s.frames|) < MIN_DURATION then
      (s.(frames := []), None)
    else
      var n := s.audioFileCount + 1;
      (s.(audioFileCount := n, files := s.files[AudioFile(n) := WavOf(s.frames)], frames := []), Some(AudioFile(n)))
  }

  /**
   * The three outcomes of `save_audio`: nothing to save; an utterance of at
   * most five chunks, which is discarded; or the next audio file, which
   * holds the whole utterance. Only the buffer, the counter and the files change.
   */
  lemma AfterSaveCases(s: Listener)
    ensures AfterSave(s).0 == s.(frames := [], audioFileCount := AfterSave(s).0.audioFileCount,
                                 files := AfterSave(s).0.files)
    ensures AfterSave(s).1.None? <==> |s.frames| <= 5
    ensures AfterSave(s).1.None? ==> AfterSave(s).0 == s.(frames := [])
    ensures AfterSave(s).1.Some? ==>
      AfterSave(s).1.value == AudioFile(s.audioFileCount + 1)
      && AfterSave(s).0 == s.(frames := [], audioFileCount := s.audioFileCount + 1,
                              files := s.files[AudioFile(s.audioFileCount + 1) := WavOf(s.frames)])
  {
    TooShortIff(|s.frames|);
  }

  // ---------------------------------------------------------------------
  // One iteration of audio_listener_loop
  // ---------------------------------------------------------------------

  /** A chunk read from the stream and the clock reading taken for it. */
  datatype Input = Input(data: Chunk, now: real)

  /** `last_speech_time` after the chunk has refreshed it (a loud chunk) or not. */
  function RefreshedSpeechTime(s: Listener, i: Input): real {
    if Loud(i.data) then i.now else s.lastSpeechTime
  }

  /** The end-of-utterance test: recording, not busy, and strictly more than the timeout since speech. */
  predicate Closes(s: Listener, i: Input) {
    !s.isBusy && s.recording && i.now - RefreshedSpeechTime(s, i) > SILENCE_TIMEOUT
  }

  /** A loud chunk refreshes the timer it is compared against, so it never ends the utterance. */
  lemma LoudChunkNeverCloses(s: Listener, i: Input)
    requires Loud(i.data)
    ensures !Closes(s, i)
  {
  }

  /** The effect of one chunk: the new state and the path of an utterance dispatched to inference. */
  function AfterChunk(s: Listener, i: Input): (Listener, Option<FileName>)
  {
    if s.isBusy then
      (s, None)
    else if !s.recording then
      if Loud(i.data) then (s.(recording := true, frames := [i.data], lastSpeechTime := i.now), None)
      else (s, None)
    else
      var s1 := s.(frames := s.frames + [i.data], lastSpeechTime := RefreshedSpeechTime(s, i));
      if i.now - s1.lastSpeechTime > SILENCE_TIMEOUT then
        var (s2, path) := AfterSave(s1);
        if path.Some? then (s2.(isBusy := true), path) else (s2.(recording := false), None)
      else
        (s1, None)
  }

  /** What one chunk does, case by case. */
  lemma AfterChunkCases(s: Listener, i: Input)
    // while busy nothing changes
    ensures s.isBusy ==> AfterChunk(s, i) == (s, None)
    // waiting for speech: a quiet chunk is ignored; a loud one starts an utterance
    // holding exactly that chunk, and no end test is made on it
    ensures !s.isBusy && !s.recording ==> AfterChunk(s, i).1.None?
    ensures !s.isBusy && !s.recording && !Loud(i.data) ==> AfterChunk(s, i).0 == s
    ensures !s.isBusy && !s.recording && Loud(i.data) ==>
      AfterChunk(s, i).0 == s.(recording := true, frames := [i.data], lastSpeechTime := i.now)
    // recording: every chunk is appended, only a loud one refreshes the timer
    ensures !s.isBusy && s.recording && !Closes(s, i) ==>
      AfterChunk(s, i) == (s.(frames := s.frames + [i.data], lastSpeechTime := RefreshedSpeechTime(s, i)), None)
    // end of the utterance, including the chunk that ended it
    ensures Closes(s, i) ==> AfterChunk(s, i).0.frames == [] && AfterChunk(s, i).0.lastSpeechTime == s.lastSpeechTime
    ensures Closes(s, i) ==> (AfterChunk(s, i).1.Some? <==> |s.frames| + 1 >= 6)
    ensures Closes(s, i) && AfterChunk(s, i).1.Some? ==>
      AfterChunk(s, i).0 == s.(isBusy := true, frames := [], audioFileCount := s.audioFileCount + 1,
                files := s.files[AudioFile(s.audioFileCount + 1) := WavOf(s.frames + [i.data])])
      && AfterChunk(s, i).1.value == AudioFile(s.audioFileCount + 1)
    ensures Closes(s, i) && AfterChunk(s, i).1.None? ==> AfterChunk(s, i).0 == s.(recording := false, frames := [])
    // the busy flag is raised only together with a dispatched path
    ensures AfterChunk(s, i).0.isBusy <==> s.isBusy || AfterChunk(s, i).1.Some?
  {
    AfterSaveCases(s.(frames := s.frames + [i.data], lastSpeechTime := RefreshedSpeechTime(s, i)));
  }

  /**
   * The invariant the listener and the pipeline keep together: there is no
   * buffered audio unless an utterance is being recorded; while busy the
   * buffer is empty and `recording` is still set; the only audio file on
   * disk is the one being processed, and only while busy; no TTS file
   * outlives the call that made it.
   */
  ghost predicate Consistent(s: Listener) {
    (!s.recording ==> s.frames == [])
    && (s.isBusy ==> s.frames == [] && s.recording)
    && (forall k: nat :: AudioFile(k) in s.files <==> s.isBusy && k == s.audioFileCount)
    && (forall k: nat :: TtsFile(k) !in s.files)
  }

  lemma InitialConsistent()
    ensures Consistent(Initial)
  {
  }

  lemma AfterChunkConsistent(s: Listener, i: Input)
    requires Consistent(s)
    ensures Consistent(AfterChunk(s, i).0)
  {
    AfterChunkCases(s, i);
  }

  // ---------------------------------------------------------------------
  // Runs of the listener over a sequence of chunks
  // ---------------------------------------------------------------------

  function Dispatched(d: Option<FileName>): seq<FileName> {
    if d.Some? then [d.value] else []
  }

  /** The listener fed `ins` in order: the final state and the paths dispatched on the way. */
  function Run(s: Listener, ins: seq<Input>): (Listener, seq<FileName>)
    decreases |ins|
  {
    if ins == [] then (s, [])
    else
      var step := AfterChunk(s, ins[0]);
      var rest := Run(step.0, ins[1..]);
      (rest.0, Dispatched(step.1) + rest.1)
  }

  lemma RunStep(s: Listener, ins: seq<Input>)
    requires ins != []
    ensures Run(s, ins) ==
      (Run(AfterChunk(s, ins[0]).0, ins[1..]).0,
       Dispatched(AfterChunk(s, ins[0]).1) + Run(AfterChunk(s, ins[0]).0, ins[1..]).1)
  {
  }

  lemma {:induction false} RunConsistent(s: Listener, ins: seq<Input>)
    requires Consistent(s)
    ensures Consistent(Run(s, ins).0)
    decreases |ins|
  {
    if ins != [] {
      AfterChunkConsistent(s, ins[0]);
      RunConsistent(AfterChunk(s, ins[0]).0, ins[1..]);
    }
  }

  /** Drop-on-busy: while busy, any number of chunks change nothing and dispatch nothing. */
  lemma {:induction false} BusyIgnoresChunks(s: Listener, ins: seq<Input>)
    requires s.isBusy
    ensures Run(s, ins) == (s, [])
    decreases |ins|
  {
    if ins != [] {
      RunStep(s, ins);
      BusyIgnoresChunks(s, ins[1..]);
      assert Run(s, ins).1 == [];
    }
  }

  /**
   * Single flight: without the pipeline clearing the busy flag in between,
   * the listener dispatches at most one utterance, and the last state is busy
   * if it dispatched one.
   */
  lemma {:induction false} AtMostOneDispatch(s: Listener, ins: seq<Input>)
    ensures |Run(s, ins).1| <= (if s.isBusy then 0 else 1)
    ensures |Run(s, ins).1| == 1 ==> Run(s, ins).0.isBusy
    decreases |ins|
  {
    if ins != [] {
      var (s1, d) := AfterChunk(s, ins[0]);
      if d.Some? {
        BusyIgnoresChunks(s1, ins[1..]);
      } else {
        AtMostOneDispatch(s1, ins[1..]);
      }
    }
  }

  /** While waiting for speech, quiet chunks leave the listener exactly as it was. */
  lemma {:induction false} QuietKeepsWaiting(s: Listener, ins: seq<Input>)
    requires !s.isBusy && !s.recording
    requires forall j :: 0 <= j < |ins| ==> !Loud(ins[j].data)
    ensures Run(s, ins) == (s, [])
    decreases |ins|
  {
    if ins != [] {
      RunStep(s, ins);
      QuietKeepsWaiting(s, ins[1..]);
      assert Run(s, ins).1 == [];
    }
  }

  /** The chunks of a sequence of inputs. */
  function Datas(ins: seq<Input>): (r: seq<Chunk>)
    ensures |r| == |ins| && forall j :: 0 <= j < |ins| ==> r[j] == ins[j].data
  {
    seq(|ins|, j requires 0 <= j < |ins| => ins[j].data)
  }

  /** Appending the chunks one input at a time appends the chunks of all of them. */
  lemma FramesCons(f: seq<Chunk>, ins: seq<Input>)
    requires ins != []
    ensures (f + [ins[0].data]) + Datas(ins[1..]) == f + Datas(ins)
  {
    assert Datas(ins) == [ins[0].data] + Datas(ins[1..]);
  }

  /** The time of the last of `ins`, or `t` when there is none. */
  function LastTime(t: real, ins: seq<Input>): real {
    if ins == [] then t else ins[|ins| - 1].now
  }

  lemma LastTimeCons(t: real, ins: seq<Input>)
    requires ins != []
    ensures LastTime(t, ins) == LastTime(ins[0].now, ins[1..])
  {
    if |ins| > 1 {
      assert ins[1..][|ins[1..]| - 1] == ins[|ins| - 1];
    }
  }

  /** A chunk that dispatches nothing only moves the run on to the next state. */
  lemma RunQuietStep(s: Listener, ins: seq<Input>)
    requires ins != [] && AfterChunk(s, ins[0]).1.None?
    ensures Run(s, ins) == Run(AfterChunk(s, ins[0]).0, ins[1..])
  {
    RunStep(s, ins);
    assert Run(s, ins).1 == Run(AfterChunk(s, ins[0]).0, ins[1..]).1;
  }

  /** While waiting, a loud chunk starts an utterance holding exactly that chunk. */
  lemma LoudWhileWaiting(s: Listener, ins: seq<Input>)
    requires ins != [] && !s.isBusy && !s.recording && Loud(ins[0].data)
    ensures Run(s, ins) == Run(s.(recording := true, frames := [ins[0].data], lastSpeechTime := ins[0].now), ins[1..])
  {
    AfterChunkCases(s, ins[0]);
    RunQuietStep(s, ins);
  }

  /** While recording, a loud chunk is appended and moves the timer to its own time. */
  lemma LoudWhileRecording(s: Listener, ins: seq<Input>)
    requires ins != [] && !s.isBusy && s.recording && Loud(ins[0].data)
    ensures Run(s, ins) == Run(s.(frames := s.frames + [ins[0].data], lastSpeechTime := ins[0].now), ins[1..])
  {
    LoudChunkNeverCloses(s, ins[0]);
    AfterChunkCases(s, ins[0]);
    RunQuietStep(s, ins);
  }

  /** While recording, a quiet chunk within the timeout is appended and leaves the timer alone. */
  lemma QuietWhileRecording(s: Listener, ins: seq<Input>)
    requires ins != [] && !s.isBusy && s.recording && !Loud(ins[0].data)
    requires ins[0].now - s.lastSpeechTime <= SILENCE_TIMEOUT
    ensures Run(s, ins) == Run(s.(frames := s.frames + [ins[0].data]), ins[1..])
  {
    AfterChunkCases(s, ins[0]);
    RunQuietStep(s, ins);
  }

  /** The listener fed `a` and then `b` is the listener fed `a`, then fed `b` from where it stopped. */
  lemma {:induction false} RunAppend(s: Listener, a: seq<Input>, b: seq<Input>)
    ensures Run(s, a + b) == (Run(Run(s, a).0, b).0, Run(s, a).1 + Run(Run(s, a).0, b).1)
    decreases |a|
  {
    if a == [] {
      assert a + b == b;
      assert Run(s, a).1 + Run(s, b).1 == Run(s, b).1;
    } else {
      var x := a + b;
      assert x[0] == a[0] && x[1..] == a[1..] + b;
      var s1 := AfterChunk(s, a[0]).0;
      RunStep(s, x);
      RunStep(s, a);
      RunAppend(s1, a[1..], b);
      var d := Dispatched(AfterChunk(s, a[0]).1);
      assert d + (Run(s1, a[1..]).1 + Run(Run(s1, a[1..]).0, b).1)
          == (d + Run(s1, a[1..]).1) + Run(Run(s1, a[1..]).0, b).1;
    }
  }

  /** A stretch that dispatches nothing hands its final state on to what follows. */
  lemma RunThen(s: Listener, a: seq<Input>, b: seq<Input>, mid: Listener)
    requires Run(s, a) == (mid, [])
    ensures Run(s, a + b) == Run(mid, b)
  {
    RunAppend(s, a, b);
    assert Run(s, a + b).1 == Run(mid, b).1;
  }

  /** While recording, loud chunks are appended and move the timer to the last of them. */
  lemma {:induction false} RecordLoud(s: Listener, loud: seq<Input>)
    requires !s.isBusy && s.recording
    requires forall j :: 0 <= j < |loud| ==> Loud(loud[j].data)
    ensures Run(s, loud) ==
      (s.(frames := s.frames + Datas(loud), lastSpeechTime := LastTime(s.lastSpeechTime, loud)), [])
    decreases |loud|
  {
    if loud == [] {
      assert s.frames + Datas(loud) == s.frames;
    } else {
      LoudWhileRecording(s, loud);
      RecordLoud(s.(frames := s.frames + [loud[0].data], lastSpeechTime := loud[0].now), loud[1..]);
      FramesCons(s.frames, loud);
      LastTimeCons(s.lastSpeechTime, loud);
    }
  }

  /** While recording, quiet chunks within the timeout are appended and leave the timer alone. */
  lemma {:induction false} RecordQuiet(s: Listener, quiet: seq<Input>)
    requires !s.isBusy && s.recording
    requires forall j :: 0 <= j < |quiet| ==> !Loud(quiet[j].data)
    requires forall j :: 0 <= j < |quiet| ==> quiet[j].now - s.lastSpeechTime <= SILENCE_TIMEOUT
    ensures Run(s, quiet) == (s.(frames := s.frames + Datas(quiet)), [])
    decreases |quiet|
  {
    if quiet == [] {
      assert s.frames + Datas(quiet) == s.frames;
    } else {
      QuietWhileRecording(s, quiet);
      RecordQuiet(s.(frames := s.frames + [quiet[0].data]), quiet[1..]);
      FramesCons(s.frames, quiet);
    }
  }

  /** From waiting, a run of loud chunks starts an utterance holding exactly those chunks. */
  lemma StartUtterance(s: Listener, loud: seq<Input>)
    requires !s.isBusy && !s.recording && |loud| >= 1
    requires forall j :: 0 <= j < |loud| ==> Loud(loud[j].data)
    ensures Run(s, loud) == (s.(recording := true, frames := Datas(loud), lastSpeechTime := loud[|loud| - 1].now), [])
  {
    LoudWhileWaiting(s, loud);
    RecordLoud(s.(recording := true, frames := [loud[0].data], lastSpeechTime := loud[0].now), loud[1..]);
    FramesCons([], loud);
    assert [] + [loud[0].data] == [loud[0].data] && [] + Datas(loud) == Datas(loud);
    LastTimeCons(s.lastSpeechTime, loud);
  }

  /** The quiet chunk that ends an utterance of n + 1 chunks. */
  lemma EndUtterance(s: Listener, i: Input)
    requires Closes(s, i) && !Loud(i.data)
    ensures |s.frames| + 1 <= 5 ==> Run(s, [i]) == (s.(recording := false, frames := []), [])
    ensures |s.frames| + 1 > 5 ==>
      Run(s, [i]) == (s.(isBusy := true, frames := [], audioFileCount := s.audioFileCount + 1,
                         files := s.files[AudioFile(s.audioFileCount + 1) := WavOf(s.frames + [i.data])]),
                      [AudioFile(s.audioFileCount + 1)])
  {
    var r := AfterChunk(s, i);
    AfterChunkCases(s, i);
    assert [i][1..] == [];
    RunStep(s, [i]);
    assert Run(r.0, []) == (r.0, []);
    assert Run(s, [i]) == (r.0, Dispatched(r.1) + []);
    if |s.frames| + 1 <= 5 {
      assert r.1.None?;
      assert r.0 == s.(recording := false, frames := []);
      assert Dispatched(r.1) + [] == [];
    } else {
      var n := s.audioFileCount + 1;
      assert r.1 == Some(AudioFile(n));
      assert r.0 == s.(isBusy := true, frames := [], audioFileCount := n,
                       files := s.files[AudioFile(n) := WavOf(s.frames + [i.data])]);
      assert Dispatched(r.1) + [] == [AudioFile(n)];
    }
  }

  /** Up to its last chunk, an utterance is recorded in full with the timer at its last loud chunk. */
  lemma UtteranceUpToLast(s: Listener, loud: seq<Input>, quiet: seq<Input>)
    requires !s.isBusy && !s.recording
    requires |loud| >= 1 && |quiet| >= 1
    requires forall j :: 0 <= j < |loud| ==> Loud(loud[j].data)
    requires forall j :: 0 <= j < |quiet| ==> !Loud(quiet[j].data)
    requires forall j :: 0 <= j < |quiet| - 1 ==> quiet[j].now - loud[|loud| - 1].now <= SILENCE_TIMEOUT
    ensures Run(s, loud + quiet) ==
      Run(s.(recording := true, frames := Datas(loud) + Datas(quiet[..|quiet| - 1]),
             lastSpeechTime := loud[|loud| - 1].now), [quiet[|quiet| - 1]])
  {
    var k, last := |quiet| - 1, loud[|loud| - 1].now;
    var s2 := s.(recording := true, frames := Datas(loud), lastSpeechTime := last);
    StartUtterance(s, loud);
    RunThen(s, loud, quiet, s2);
    var q := quiet[..k];
    assert forall j :: 0 <= j < |q| ==> !Loud(q[j].data) && q[j].now - s2.lastSpeechTime <= SILENCE_TIMEOUT by {
      forall j | 0 <= j < |q| ensures !Loud(q[j].data) && q[j].now - s2.lastSpeechTime <= SILENCE_TIMEOUT {
        assert q[j] == quiet[j];
      }
    }
    RecordQuiet(s2, q);
    var s3 := s2.(frames := s2.frames + Datas(q));
    assert quiet == q + [quiet[k]];
    RunThen(s2, q, [quiet[k]], s3);
    assert s3 == s.(recording := true, frames := Datas(loud) + Datas(q), lastSpeechTime := last);
  }

  /**
   * One utterance end to end: from waiting, N >= 1 loud chunks and then K >= 1
   * quiet ones, the last of which is the first to come more than the timeout
   * after the last loud chunk. All N + K chunks form the utterance. With at
   * most five it is dropped and the listener waits again (this lemma);
   * otherwise it is saved and dispatched (`UtteranceSaved`).
   */
  lemma UtteranceDropped(s: Listener, loud: seq<Input>, quiet: seq<Input>)
    requires !s.isBusy && !s.recording
    requires |loud| >= 1 && |quiet| >= 1
    requires forall j :: 0 <= j < |loud| ==> Loud(loud[j].data)
    requires forall j :: 0 <= j < |quiet| ==> !Loud(quiet[j].data)
    requires forall j :: 0 <= j < |quiet| - 1 ==> quiet[j].now - loud[|loud| - 1].now <= SILENCE_TIMEOUT
    requires quiet[|quiet| - 1].now - loud[|loud| - 1].now > SILENCE_TIMEOUT
    requires |loud| + |quiet| <= 5
    ensures Run(s, loud + quiet) == (s.(lastSpeechTime := loud[|loud| - 1].now, frames := []), [])
  {
    var k := |quiet| - 1;
    var s3 := s.(recording := true, frames := Datas(loud) + Datas(quiet[..k]), lastSpeechTime := loud[|loud| - 1].now);
    UtteranceUpToLast(s, loud, quiet);
    EndUtterance(s3, quiet[k]);
  }

  /**
   * An utterance of more than five chunks is written, all of it, to the next
   * audio file; that path is the one dispatched and the listener is busy.
   */
  lemma UtteranceSaved(s: Listener, loud: seq<Input>, quiet: seq<Input>)
    requires !s.isBusy && !s.recording
    requires |loud| >= 1 && |quiet| >= 1
    requires forall j :: 0 <= j < |loud| ==> Loud(loud[j].data)
    requires forall j :: 0 <= j < |quiet| ==> !Loud(quiet[j].data)
    requires forall j :: 0 <= j < |quiet| - 1 ==> quiet[j].now - loud[|loud| - 1].now <= SILENCE_TIMEOUT
    requires quiet[|quiet| - 1].now - loud[|loud| - 1].now > SILENCE_TIMEOUT
    requires |loud| + |quiet| > 5
    ensures Run(s, loud + quiet) ==
      (s.(isBusy := true, recording := true, lastSpeechTime := loud[|loud| - 1].now, frames := [],
          audioFileCount := s.audioFileCount + 1,
          files := s.files[AudioFile(s.audioFileCount + 1) := WavOf(Datas(loud + quiet))]),
       [AudioFile(s.audioFileCount + 1)])
  {
    var k, n, last := |quiet| - 1, s.audioFileCount + 1, loud[|loud| - 1].now;
    var s3 := s.(recording := true, frames := Datas(loud) + Datas(quiet[..k]), lastSpeechTime := last);
    UtteranceUpToLast(s, loud, quiet);
    EndUtterance(s3, quiet[k]);
    DatasOfUtterance(loud, quiet);
    var w := Datas(loud + quiet);
    assert s3.frames + [quiet[k].data] == w;
    var s4 := s3.(isBusy := true, frames := [], audioFileCount := n, files := s.files[AudioFile(n) := WavOf(w)]);
    assert Run(s3, [quiet[k]]) == (s4, [AudioFile(n)]);
    assert s4 == s.(isBusy := true, recording := true, lastSpeechTime := last, frames := [],
                    audioFileCount := n, files := s.files[AudioFile(n) := WavOf(w)]);
  }

  lemma DatasOfUtterance(loud: seq<Input>, quiet: seq<Input>)
    requires |quiet| >= 1
    ensures Datas(loud) + Datas(quiet[..|quiet| - 1]) + [quiet[|quiet| - 1].data] == Datas(loud + quiet)
  {
  }

  // ---------------------------------------------------------------------
  // The concrete scenarios: 4096-sample chunks arriving every 4096/48000 s
  // ---------------------------------------------------------------------

  /** Seconds per chunk: 4096 / 48000. */
  const PERIOD: real := 4096.0 / 48000.0

  function Constant(v: Sample): Chunk {
    seq(CHUNK, _ => v)
  }

  lemma {:induction false} AbsSumConstant(n: nat, v: Sample)
    ensures AbsSum(seq(n, _ => v)) == n * Abs(v)
  {
    if n > 0 {
      assert seq(n, _ => v)[1..] == seq(n - 1, _ => v);
      AbsSumConstant(n - 1, v);
    }
  }

  /** Chunk number j of a stream starting at time 0, loud for the first `loudCount` chunks. */
  function Scenario(loudCount: nat, total: nat): (ins: seq<Input>)
    ensures |ins| == total
  {
    seq(total, j => Input(if j < loudCount then Constant(1000) else Constant(0), j as real * PERIOD))
  }

  lemma ConstantLoudness()
    ensures Loud(Constant(1000)) && !Loud(Constant(0))
  {
    AbsSumConstant(CHUNK, 1000);
    AbsSumConstant(CHUNK, 0);
  }

  /**
   * Chunks `loud` then `quiet` of a scenario stream: the quiet chunk j comes
   * (j + 1) chunk periods after the last loud one, so the first eleven are
   * within the second and the twelfth is past it.
   */
  lemma ScenarioFacts(loudCount: nat, total: nat)
    requires 1 <= loudCount && loudCount + 12 <= total
    ensures var ins := Scenario(loudCount, total);
      var loud, quiet := ins[..loudCount], ins[loudCount..loudCount + 12];
      (forall j :: 0 <= j < |loud| ==> Loud(loud[j].data))
      && (forall j :: 0 <= j < |quiet| ==> !Loud(quiet[j].data))
      && (forall j :: 0 <= j < |quiet| - 1 ==> quiet[j].now - loud[|loud| - 1].now <= SILENCE_TIMEOUT)
      && quiet[|quiet| - 1].now - loud[|loud| - 1].now > SILENCE_TIMEOUT
  {
    ScenarioLoudness(loudCount, total);
    ScenarioTiming(loudCount, total);
  }

  /** The first `loudCount` chunks of a scenario are loud and the rest are quiet. */
  lemma ScenarioLoudness(loudCount: nat, total: nat)
    requires loudCount <= total
    ensures var ins := Scenario(loudCount, total);
      (forall j :: 0 <= j < loudCount ==> Loud(ins[j].data))
      && (forall j :: loudCount <= j < total ==> !Loud(ins[j].data))
  {
    ConstantLoudness();
  }

  /** Quiet chunk j after the last loud one comes j + 1 periods later. */
  lemma ScenarioTiming(loudCount: nat, total: nat)
    requires 1 <= loudCount && loudCount + 12 <= total
    ensures var ins := Scenario(loudCount, total);
      (forall j :: loudCount <= j < loudCount + 11 ==> ins[j].now - ins[loudCount - 1].now <= SILENCE_TIMEOUT)
      && ins[loudCount + 11].now - ins[loudCount - 1].now > SILENCE_TIMEOUT
  {
    var ins := Scenario(loudCount, total);
    forall j | loudCount <= j < loudCount + 11
      ensures ins[j].now - ins[loudCount - 1].now <= SILENCE_TIMEOUT
    {
      assert ins[j].now - ins[loudCount - 1].now == (j - loudCount + 1) as real * PERIOD;
    }
    assert ins[loudCount + 11].now - ins[loudCount - 1].now == 12.0 * PERIOD;
  }

  /** Once the listener is busy, whatever follows changes nothing. */
  lemma BusyAfter(s: Listener, a: seq<Input>, b: seq<Input>, mid: Listener, out: seq<FileName>)
    requires Run(s, a) == (mid, out) && mid.isBusy
    ensures Run(s, a + b) == (mid, out)
  {
    RunAppend(s, a, b);
    BusyIgnoresChunks(mid, b);
    assert out + [] == out;
  }

  /**
   * From the start, loudCount >= 1 loud chunks and twelve quiet ones at the
   * stream's pace make one utterance of all of them, saved as the first file.
   */
  lemma ScenarioUtterance(loudCount: nat)
    requires loudCount >= 1
    ensures var ins := Scenario(loudCount, loudCount + 12);
      Run(Initial, ins).1 == [AudioFile(1)] && Run(Initial, ins).0.isBusy
      && Run(Initial, ins).0.files == map[AudioFile(1) := WavOf(Datas(ins))]
  {
    ScenarioRun(loudCount);
  }

  lemma ScenarioRun(loudCount: nat)
    requires loudCount >= 1
    ensures var ins := Scenario(loudCount, loudCount + 12);
      Run(Initial, ins) ==
        (Initial.(isBusy := true, recording := true, lastSpeechTime := ins[loudCount - 1].now, frames := [],
                  audioFileCount := Initial.audioFileCount + 1,
                  files := Initial.files[AudioFile(Initial.audioFileCount + 1) := WavOf(Datas(ins))]),
         [AudioFile(Initial.audioFileCount + 1)])
  {
    var ins := Scenario(loudCount, loudCount + 12);
    var loud, quiet := ins[..loudCount], ins[loudCount..];
    ScenarioFacts(loudCount, loudCount + 12);
    assert ins == loud + quiet;
    UtteranceSaved(Initial, loud, quiet);
  }

  /**
   * Eight loud chunks then fifteen silent ones at the stream's pace: the
   * twelfth silent chunk is the first more than a second (12 * 0.0853 s)
   * after the last loud one, so a single utterance of 8 + 12 = 20 chunks is
   * saved and dispatched, and the three chunks after it are dropped because
   * the listener is busy.
   */
  lemma EightLoudThenSilence()
    ensures Run(Initial, Scenario(8, 23)).1 == [AudioFile(1)]
    ensures Run(Initial, Scenario(8, 23)).0.isBusy
    ensures Run(Initial, Scenario(8, 23)).0.files == map[AudioFile(1) := WavOf(Datas(Scenario(8, 20)))]
  {
    var ins := Scenario(8, 23);
    assert ins[..20] == Scenario(8, 20);
    assert ins == ins[..20] + ins[20..];
    ScenarioUtterance(8);
    BusyAfter(Initial, ins[..20], ins[20..], Run(Initial, Scenario(8, 20)).0, [AudioFile(1)]);
  }

  /**
   * A single loud chunk (0.085 s) then silence at the stream's pace is not
   * dropped by the 0.5 s filter: the eleven quiet chunks that must pass before
   * the timeout are part of the utterance, which then holds 13 chunks.
   */
  lemma OneLoudChunkIsStillSaved()
    ensures Run(Initial, Scenario(1, 13)).1 == [AudioFile(1)]
    ensures Run(Initial, Scenario(1, 13)).0.files == map[AudioFile(1) := WavOf(Datas(Scenario(1, 13)))]
  {
    ScenarioUtterance(1);
  }

  /**
   * The 0.5 s filter drops an utterance only when the clock jumps: one loud
   * chunk at 0 s and a quiet one read 2 s later make an utterance of two
   * chunks, which is discarded; the listener waits again with nothing saved.
   */
  lemma StalledShortUtteranceDropped()
    ensures var ins := [Input(Constant(1000), 0.0), Input(Constant(0), 2.0)];
      Run(Initial, ins) == (Initial, [])
  {
    ConstantLoudness();
    var ins := [Input(Constant(1000), 0.0), Input(Constant(0), 2.0)];
    assert ins == [ins[0]] + [ins[1]];
    UtteranceDropped(Initial, [ins[0]], [ins[1]]);
    assert Initial.(lastSpeechTime := 0.0, frames := []) == Initial;
  }

  // ---------------------------------------------------------------------
  // process_inference
  // ---------------------------------------------------------------------

  /** How `process_inference` left: which exit it took. */
  datatype Exit =
    | InvalidPath
    | AsrRaised
    | Ignored(text: string)
    | LlmRaised
    | Answered(reply: string, spoken: bool)

  /** Recognised text that is not worth answering: empty, or one of 嗯, 。 and ？. */
  predicate IgnoredText(text: string) {
    |text| < 1 || text in ["\U{55EF}", "\U{3002}", "\U{FF1F}"]
  }

  /**
   * The exit `process_inference` takes once the audio file exists: the
   * recogniser raises; the cleaned text is ignored; the language model
   * raises; or the reply comes back and, when it is not empty, is spoken.
   */
  function Outcome(asr: Stage<string>, llm: Stage<string>, tts: Synthesis): Exit {
    match asr
    case Raised => AsrRaised
    case Returned(rawText) =>
      var userText := CleanAsrText(rawText);
      if IgnoredText(userText) then Ignored(userText)
      else Reply(llm, tts)
  }

  /** The exit once the text passed the filter: the language model raises, or its reply is spoken when not empty. */
  function Reply(llm: Stage<string>, tts: Synthesis): Exit {
    match llm
    case Raised => LlmRaised
    case Returned(reply) => Answered(reply, reply != "" && tts == Synthesized(false))
  }

  /** Which exit is taken, in terms of the three oracles. */
  lemma OutcomeCases(asr: Stage<string>, llm: Stage<string>, tts: Synthesis)
    ensures var e := Outcome(asr, llm, tts);
      (e.AsrRaised? <==> asr.Raised?)
      && (e.Ignored? <==> asr.Returned? && IgnoredText(CleanAsrText(asr.value)))
      && (e.Ignored? ==> e.text == CleanAsrText(asr.value) && (e.text == [] || !IsSpace(e.text[0])))
      && (e.LlmRaised? <==> asr.Returned? && !IgnoredText(CleanAsrText(asr.value)) && llm.Raised?)
      && (e.Answered? <==> asr.Returned? && !IgnoredText(CleanAsrText(asr.value)) && llm.Returned?)
      && (e.Answered? ==> e.reply == llm.value && (e.spoken <==> e.reply != "" && tts == Synthesized(false)))
      && !e.InvalidPath?
  {
    if asr.Returned? {
      var u := CleanAsrText(asr.value);
      assert u == [] || !IsSpace(u[0]);
    }
  }

  /** The speech file the reply is synthesized into, if any is made. */
  function SpeechFileOf(count: nat, e: Exit): set<FileName> {
    if e.Answered? && e.reply != "" then {TtsFile(count)} else {}
  }

  /**
   * `process_inference(path)`: with no such file the busy flag is cleared and
   * nothing else happens; otherwise the pipeline runs, and then the audio
   * file and any speech file are removed and both flags are cleared.
   */
  function AfterInference(s: Listener, path: Option<FileName>, asr: Stage<string>, llm: Stage<string>, tts: Synthesis)
    : (Listener, Exit)
  {
    if path.None? || path.value !in s.files then (s.(isBusy := false), InvalidPath)
    else
      var e := Outcome(asr, llm, tts);
      (s.(isBusy := false, recording := false, files := s.files - SpeechFileOf(s.audioFileCount, e) - {path.value}), e)
  }

  /** What `process_inference` leaves behind, whatever the oracles did. */
  lemma InferenceCleansUp(s: Listener, path: Option<FileName>, asr: Stage<string>, llm: Stage<string>, tts: Synthesis)
    ensures var (t, e) := AfterInference(s, path, asr, llm, tts);
      !t.isBusy
      && t.frames == s.frames && t.lastSpeechTime == s.lastSpeechTime && t.audioFileCount == s.audioFileCount
      && (e.InvalidPath? <==> path.None? || path.value !in s.files)
      && (e.InvalidPath? ==> t.recording == s.recording && t.files == s.files)
      && (!e.InvalidPath? ==> !t.recording && path.value !in t.files)
      && (forall f :: f in t.files ==> f in s.files && t.files[f] == s.files[f])
      && (forall f :: f in s.files && !(path.Some? && f == path.value) && !f.TtsFile? ==> f in t.files)
  {
  }

  /**
   * Run on the file the listener dispatched, the pipeline takes a real exit
   * and leaves the listener idle and consistent, with no file left behind.
   */
  lemma InferenceRestoresConsistency(s: Listener, asr: Stage<string>, llm: Stage<string>, tts: Synthesis)
    requires Consistent(s) && s.isBusy
    ensures var (t, e) := AfterInference(s, Some(AudioFile(s.audioFileCount)), asr, llm, tts);
      Consistent(t) && !e.InvalidPath? && !t.isBusy && !t.recording && t.files == map[]
  {
    var r := AfterInference(s, Some(AudioFile(s.audioFileCount)), asr, llm, tts);
    assert AudioFile(s.audioFileCount) in s.files;
    assert forall f :: f !in r.0.files by {
      forall f ensures f !in r.0.files {
        if f in s.files {
          match f
          case AudioFile(k) =>
          case TtsFile(k) =>
        }
      }
    }
  }

  // ---------------------------------------------------------------------
  // The assistant object
  // ---------------------------------------------------------------------

  class Assistant {
    var isBusy: bool
    var audioFileCount: nat
    var recording: bool
    var frames: seq<Chunk>
    var lastSpeechTime: real
    /** The files this process has written to OUTPUT_DIR and not yet removed. */
    var files: map<FileName, File>

    function State(): Listener
      reads this
    {
      Listener(isBusy, recording, frames, lastSpeechTime, audioFileCount, files)
    }

    constructor ()
      ensures State() == Initial
    {
      isBusy := false;
      audioFileCount := 0;
      recording := false;
      frames := [];
      lastSpeechTime := 0.0;
      files := map[];
    }

    /** `save_audio` */
    method SaveAudio() returns (path: Option<FileName>)
      modifies this
      ensures (State(), path) == AfterSave(old(State()))
    {
      if frames == [] {
        return None;
      }
      if Duration(|frames|) < MIN_DURATION {
        frames := [];
        return None;
      }
      audioFileCount := audioFileCount + 1;
      var filename := AudioFile(audioFileCount);
      files := files[filename := WavOf(frames)];
      frames := [];
      path := Some(filename);
    }

    /** The body of the `while self.running` loop of `audio_listener_loop`, for one chunk read at `now`. */
    method ListenerIteration(data: Chunk, now: real) returns (dispatched: Option<FileName>)
      modifies this
      ensures (State(), dispatched) == AfterChunk(old(State()), Input(data, now))
    {
      dispatched := None;
      if isBusy {
        return;
      }
      var volume := Volume(data);
      LoudIffVolumeAbove(data);
      if !recording {
        if volume > MIN_VOLUME as real {
          recording := true;
          frames := [data];
          lastSpeechTime := now;
        }
      } else {
        frames := frames + [data];
        if volume > MIN_VOLUME as real {
          lastSpeechTime := now;
        }
        if now - lastSpeechTime > SILENCE_TIMEOUT {
          var wavPath := SaveAudio();
          if wavPath.Some? {
            isBusy := true;
            dispatched := wavPath;
          } else {
            recording := false;
          }
        }
      }
    }

    /**
     * `text_to_speech_and_play`: synthesize `text` into the TTS file, play it,
     * and remove the file whatever happened. Returns whether playback finished.
     */
    method TextToSpeechAndPlay(text: string, tts: Synthesis) returns (spoken: bool)
      modifies this
      ensures files == old(files) - {TtsFile(audioFileCount)}
      ensures isBusy == old(isBusy) && recording == old(recording) && frames == old(frames)
      ensures lastSpeechTime == old(lastSpeechTime) && audioFileCount == old(audioFileCount)
      ensures spoken <==> tts == Synthesized(false)
    {
      var ttsFile := TtsFile(audioFileCount);
      match tts {
        case SynthesisRaised(leftFile) =>
          if leftFile {
            files := files[ttsFile := Speech(text, VOICE)];
          }
          spoken := false;
        case Synthesized(playbackRaised) =>
          files := files[ttsFile := Speech(text, VOICE)];
          spoken := !playbackRaised;
      }
      // finally
      if ttsFile in files {
        files := files - {ttsFile};
      }
    }

    /** The language-model and speech steps of the `try` block, on text that passed the filter. */
    method ReplyAndSpeak(llm: Stage<string>, tts: Synthesis) returns (exit: Exit)
      modifies this
      ensures exit == Reply(llm, tts)
      ensures files == old(files) - SpeechFileOf(audioFileCount, exit)
      ensures isBusy == old(isBusy) && recording == old(recording) && frames == old(frames)
      ensures lastSpeechTime == old(lastSpeechTime) && audioFileCount == old(audioFileCount)
    {
      match llm {
        case Raised =>
          exit := LlmRaised;
        case Returned(aiResponse) =>
          var spoken := false;
          if aiResponse != "" {
            spoken := TextToSpeechAndPlay(aiResponse, tts);
          }
          exit := Answered(aiResponse, spoken);
      }
    }

    /**
     * The `try` block of `process_inference`: recognise, filter, ask the
     * language model and speak the reply. Only the speech file is touched.
     */
    method Pipeline(asr: Stage<string>, llm: Stage<string>, tts: Synthesis) returns (exit: Exit)
      modifies this
      ensures exit == Outcome(asr, llm, tts)
      ensures files == old(files) - SpeechFileOf(audioFileCount, exit)
      ensures isBusy == old(isBusy) && recording == old(recording) && frames == old(frames)
      ensures lastSpeechTime == old(lastSpeechTime) && audioFileCount == old(audioFileCount)
    {
      match asr {
        case Raised =>
          exit := AsrRaised;
        case Returned(rawText) =>
          var userText := CleanAsrText(rawText);
          if |userText| < 1 || userText in ["\U{55EF}", "\U{3002}", "\U{FF1F}"] {
            exit := Ignored(userText);
          } else {
            exit := ReplyAndSpeak(llm, tts);
          }
      }
    }

    /**
     * `process_inference` run on the path the listener dispatched (`None`
     * for a path that is `None` or empty), with the results of speech
     * recognition, the language model and speech synthesis given as oracles.
     */
    method ProcessInference(path: Option<FileName>, asr: Stage<string>, llm: Stage<string>, tts: Synthesis)
      returns (exit: Exit)
      modifies this
      ensures (State(), exit) == AfterInference(old(State()), path, asr, llm, tts)
    {
      if path.None? || path.value !in files {
        isBusy := false;
        return InvalidPath;
      }
      exit := Pipeline(asr, llm, tts);
      // finally
      if path.value in files {
        files := files - {path.value};
      } else {
        assert files == files - {path.value};
      }
      isBusy := false;
      recording := false;
    }
  }
}
