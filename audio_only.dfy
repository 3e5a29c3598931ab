/**
 * The audio-only variant of the assistant: reads are grouped five at a time
 * and a group is kept when a voice activity detector calls more than 60 % of
 * its 20 ms windows speech; the kept groups are written to a wave file once
 * no speech has been kept for 0.8 s, provided they amount to 0.6 s by the
 * (per-group) duration rule; inference then runs on that file.
 */
module AudioOnly {
  import opened SpeechCommon

  const OUTPUT_DIR: string := "./output"
  const AUDIO_RATE: nat := 48000
  const AUDIO_CHANNELS: nat := 1
  const SAMPLE_WIDTH: nat := 2
  /** Frames per read; a read of 16-bit mono audio is 2 * CHUNK bytes. */
  const CHUNK: nat := 2048
  /** Seconds without a kept group after which the kept groups are saved. */
  const NO_SPEECH_THRESHOLD: real := 0.8
  /** Shortest recording `save_audio_segment` writes, in seconds. */
  const MIN_DURATION: real := 0.6
  /** `int(AUDIO_RATE * 0.02 * 2)`: the bytes of one 20 ms window. */
  const WINDOW: nat := 1920
  /** Reads collected before the detector is asked. */
  const GROUP: nat := 5
  const VOICE: string := "zh-CN-XiaoyiNeural"

  /** The detector's answer for one window: it raised, or it said speech or not. */
  type Detector = seq<byte> -> Stage<bool>

  // ---------------------------------------------------------------------
  // b''.join
  // ---------------------------------------------------------------------

  function Concat(bs: seq<seq<byte>>): (r: seq<byte>)
    decreases |bs|
  {
    if bs == [] then [] else Concat(bs[..|bs| - 1]) + bs[|bs| - 1]
  }

  lemma ConcatSingle(b: seq<byte>)
    ensures Concat([b]) == b
  {
    assert [b][..0] == [];
  }

  /** Reads of equal size join into one buffer of their total size. */
  lemma {:induction false} ConcatLength(bs: seq<seq<byte>>, size: nat)
    requires forall k :: 0 <= k < |bs| ==> |bs[k]| == size
    ensures |Concat(bs)| == |bs| * size
    decreases |bs|
  {
    if bs != [] {
      ConcatLength(bs[..|bs| - 1], size);
    }
  }

  // ---------------------------------------------------------------------
  // check_vad_activity
  // ---------------------------------------------------------------------

  /**
   * The full windows of `data`: the slices `data[i:i + WINDOW]` for i in
   * `range(0, len(data), WINDOW)` that have the full length.
   */
  function Windows(data: seq<byte>): (ws: seq<seq<byte>>)
    ensures |ws| == |data| / WINDOW
    ensures forall k :: 0 <= k < |ws| ==> |ws[k]| == WINDOW
  {
    seq(|data| / WINDOW, k requires 0 <= k < |data| / WINDOW => data[k * WINDOW .. k * WINDOW + WINDOW])
  }

  /** The full windows tile the start of `data`; what is left is shorter than a window and is ignored. */
  lemma WindowsTile(data: seq<byte>)
    ensures Concat(Windows(data)) == data[..|Windows(data)| * WINDOW]
    ensures |data| - |Windows(data)| * WINDOW < WINDOW
  {
    var ws := Windows(data);
    WindowsTilePrefix(data, |ws|);
    assert ws[..|ws|] == ws;
  }

  lemma {:induction false} WindowsTilePrefix(data: seq<byte>, t: nat)
    requires t <= |data| / WINDOW
    ensures Concat(Windows(data)[..t]) == data[..t * WINDOW]
    decreases t
  {
    var ws := Windows(data);
    if t == 0 {
      assert ws[..0] == [];
    } else {
      WindowsTilePrefix(data, t - 1);
      assert ws[..t][..t - 1] == ws[..t - 1];
      assert data[..t * WINDOW] == data[..(t - 1) * WINDOW] + ws[t - 1];
    }
  }

  /** Appending less than a window to a buffer of whole windows adds no window. */
  lemma TrailingPartialIgnored(data: seq<byte>, tail: seq<byte>)
    requires |data| % WINDOW == 0 && |tail| < WINDOW
    ensures Windows(data + tail) == Windows(data)
  {
    var a, b := Windows(data + tail), Windows(data);
    assert |a| == |b|;
    forall k | 0 <= k < |a| ensures a[k] == b[k] {
      assert (data + tail)[k * WINDOW .. k * WINDOW + WINDOW] == data[k * WINDOW .. k * WINDOW + WINDOW];
    }
  }

  /**
   * The number of windows the detector called speech, or None when it raised
   * on any of them (the `except` then makes the whole answer False).
   */
  function SpeechCount(ws: seq<seq<byte>>, vad: Detector): (r: Option<nat>)
    decreases |ws|
  {
    if ws == [] then Some(0)
    else
      match SpeechCount(ws[..|ws| - 1], vad)
      case None => None
      case Some(n) =>
        match vad(ws[|ws| - 1])
        case Raised => None
        case Returned(speech) => Some(if speech then n + 1 else n)
  }

  /** The count exists exactly when the detector answered on every window, and is at most their number. */
  lemma {:induction false} SpeechCountCases(ws: seq<seq<byte>>, vad: Detector)
    ensures SpeechCount(ws, vad).Some? <==> forall k :: 0 <= k < |ws| ==> vad(ws[k]).Returned?
    ensures SpeechCount(ws, vad).Some? ==> SpeechCount(ws, vad).value <= |ws|
    ensures (forall k :: 0 <= k < |ws| ==> vad(ws[k]) == Returned(true)) ==> SpeechCount(ws, vad) == Some(|ws|)
    ensures (forall k :: 0 <= k < |ws| ==> vad(ws[k]) == Returned(false)) ==> SpeechCount(ws, vad) == Some(0)
    decreases |ws|
  {
    if ws != [] {
      var p := ws[..|ws| - 1];
      SpeechCountCases(p, vad);
      assert forall k :: 0 <= k < |p| ==> p[k] == ws[k];
    }
  }

  /** Once the detector has raised on some window, the answer stays "raised" whatever windows follow. */
  lemma {:induction false} SpeechCountRaisedStays(ws: seq<seq<byte>>, t: nat, vad: Detector)
    requires t <= |ws| && SpeechCount(ws[..t], vad).None?
    ensures SpeechCount(ws, vad).None?
    decreases |ws| - t
  {
    if t < |ws| {
      assert ws[..t + 1][..t] == ws[..t];
      SpeechCountRaisedStays(ws, t + 1, vad);
    } else {
      assert ws[..t] == ws;
    }
  }

  /**
   * `check_vad_activity`: True iff the detector answered on every full window,
   * there is at least one, and more than 60 % of them are speech.
   */
  function VadVerdict(data: seq<byte>, vad: Detector): bool {
    var ws := Windows(data);
    match SpeechCount(ws, vad)
    case None => false
    case Some(n) => |ws| > 0 && n as real / |ws| as real > 0.6
  }

  /** The ratio test is the exact integer comparison 5 * speech > 3 * total. */
  lemma VadVerdictIff(data: seq<byte>, vad: Detector)
    ensures VadVerdict(data, vad) <==>
      SpeechCount(Windows(data), vad).Some? && |Windows(data)| > 0
      && 5 * SpeechCount(Windows(data), vad).value > 3 * |Windows(data)|
  {
    var ws := Windows(data);
    if SpeechCount(ws, vad).Some? && |ws| > 0 {
      RatioAbove(SpeechCount(ws, vad).value, |ws|);
    }
  }

  lemma RatioAbove(n: nat, t: nat)
    requires t > 0
    ensures n as real / t as real > 0.6 <==> 5 * n > 3 * t
  {
    var tr := t as real;
    var d := n as real / tr - 0.6;
    assert d * tr == n as real - 0.6 * tr;
    if d > 0.0 {
      assert d * tr > 0.0;
    } else {
      assert d * tr <= 0.0;
    }
  }

  /**
   * A group of five reads (20480 bytes) holds ten full windows, its last
   * 1280 bytes being ignored, and it is speech iff the detector answered on
   * all ten and called at least seven of them speech.
   */
  lemma GroupVerdict(data: seq<byte>, vad: Detector)
    requires |data| == GROUP * 2 * CHUNK
    ensures |Windows(data)| == 10 && |data| - 10 * WINDOW == 1280
    ensures VadVerdict(data, vad) <==>
      SpeechCount(Windows(data), vad).Some? && SpeechCount(Windows(data), vad).value >= 7
  {
    VadVerdictIff(data, vad);
  }

  /** Silence in every window, or a detector failure, makes the buffer not speech. */
  lemma QuietBufferIsNotSpeech(data: seq<byte>, vad: Detector)
    requires forall k :: 0 <= k < |Windows(data)| ==> vad(Windows(data)[k]) != Returned(true)
    ensures !VadVerdict(data, vad)
  {
    var ws := Windows(data);
    SpeechCountCases(ws, vad);
    VadVerdictIff(data, vad);
    if SpeechCount(ws, vad).Some? {
      forall k | 0 <= k < |ws| ensures vad(ws[k]) == Returned(false) {
        var v := vad(ws[k]);
        assert v.Returned? && v != Returned(true);
        assert v.value == false;
      }
    }
  }

  /** Speech in every window of a buffer holding at least one makes it speech. */
  lemma SpeechBufferIsSpeech(data: seq<byte>, vad: Detector)
    requires |data| >= WINDOW
    requires forall k :: 0 <= k < |Windows(data)| ==> vad(Windows(data)[k]) == Returned(true)
    ensures VadVerdict(data, vad)
  {
    SpeechCountCases(Windows(data), vad);
    VadVerdictIff(data, vad);
  }

  /**
   * The loop of `check_vad_activity` over `range(0, len(audio_data), WINDOW)`,
   * with the detector as an oracle.
   */
  method CheckVadActivity(data: seq<byte>, vad: Detector) returns (isSpeech: bool)
    ensures isSpeech == VadVerdict(data, vad)
  {
    ghost var ws := Windows(data);
    var numSpeech, totalWindows := 0, 0;
    var i := 0;
    while i < |data|
      invariant 0 <= totalWindows <= |ws|
      invariant i <= |data| ==> i == totalWindows * WINDOW
      invariant i > |data| ==> totalWindows == |ws|
      invariant SpeechCount(ws[..totalWindows], vad) == Some(numSpeech)
      decreases |data| - i
    {
      var chunk := data[i .. if i + WINDOW <= |data| then i + WINDOW else |data|];
      if |chunk| == WINDOW {
        assert ws[totalWindows] == chunk;
        assert ws[..totalWindows + 1][..totalWindows] == ws[..totalWindows];
        totalWindows := totalWindows + 1;
        match vad(chunk) {
          case Raised =>
            SpeechCountRaisedStays(ws, totalWindows, vad);
            return false;
          case Returned(speech) =>
            if speech {
              numSpeech := numSpeech + 1;
            }
        }
      }
      i := i + WINDOW;
    }
    assert ws[..totalWindows] == ws;
    if totalWindows == 0 {
      return false;
    }
    RatioAbove(numSpeech, totalWindows);
    return 5 * numSpeech > 3 * totalWindows;
  }

  // ---------------------------------------------------------------------
  // Files
  // ---------------------------------------------------------------------

  /** `temp_audio_<n>.wav` written by `save_audio_segment`, or `temp_tts_<n>.mp3` by text-to-speech. */
  datatype FileName = AudioFile(n: nat) | TtsFile(n: nat)

  function PathOf(f: FileName): string {
    match f
    case AudioFile(n) => OUTPUT_DIR + "/temp_audio_" + NatToString(n) + ".wav"
    case TtsFile(n) => OUTPUT_DIR + "/temp_tts_" + NatToString(n) + ".mp3"
  }

  /** Different files get different paths. */
  lemma PathOfInjective(a: FileName, b: FileName)
    ensures PathOf(a) == PathOf(b) <==> a == b
  {
    if a.AudioFile? != b.AudioFile? {
      PathOfKindsDiffer(a, b);
    } else if PathOf(a) == PathOf(b) {
      if a.AudioFile? {
        CounterNameInjective(OUTPUT_DIR + "/temp_audio_", ".wav", a.n, b.n);
      } else {
        CounterNameInjective(OUTPUT_DIR + "/temp_tts_", ".mp3", a.n, b.n);
      }
    }
  }

  /** A recording's path and a speech file's path differ right after "temp_". */
  lemma PathOfKindsDiffer(a: FileName, b: FileName)
    requires a.AudioFile? != b.AudioFile?
    ensures PathOf(a) != PathOf(b)
  {
    assert PathOf(a)[14] != PathOf(b)[14];
  }

  type File = Artifact<seq<byte>>

  // ---------------------------------------------------------------------
  // save_audio_segment
  // ---------------------------------------------------------------------

  /** A kept group: its joined reads and the time it was kept. */
  datatype Segment = Segment(audio: seq<byte>, time: real)

  function Audios(segs: seq<Segment>): (r: seq<seq<byte>>)
    ensures |r| == |segs| && forall k :: 0 <= k < |segs| ==> r[k] == segs[k].audio
  {
    seq(|segs|, k requires 0 <= k < |segs| => segs[k].audio)
  }

  /**
   * `len(segments) * CHUNK / AUDIO_RATE`: the duration the filter assigns to
   * n kept groups, one read's worth per group although each holds five.
   */
  function Duration(n: nat): real {
    (n * CHUNK) as real / AUDIO_RATE as real
  }

  /** The 0.6 s filter drops up to fourteen groups (14 give 0.597 s, 15 give 0.64 s). */
  lemma TooShortIff(n: nat)
    ensures Duration(n) < MIN_DURATION <==> n <= 14
  {
    assert Duration(n) * 48000.0 == (n * 2048) as real;
  }

  /** The listener's state: the object's fields and the loop's `audio_buffer`. */
  datatype Listener = Listener(
    isBusy: bool,
    buffer: seq<seq<byte>>,
    segments: seq<Segment>,
    lastActiveTime: real,
    audioFileCount: nat,
    files: map<FileName, File>)

  /** A fresh assistant whose clock read `now` when it was built, with an empty buffer. */
  function Initial(now: real): Listener {
    Listener(false, [], [], now, 0, map[])
  }

  function WavOf(segs: seq<Segment>): File {
    Wav(AUDIO_CHANNELS, SAMPLE_WIDTH, AUDIO_RATE, Audios(segs))
  }

  /** `save_audio_segment`: the new state and the returned path. */
  function AfterSave(s: Listener): (Listener, Option<FileName>) {
    if s.segments == [] then
      (s, None)
    else if Duration(|s.segments|) < MIN_DURATION then
      (s.(segments := []), None)
    else
      var n := s.audioFileCount + 1;
      (s.(audioFileCount := n, files := s.files[AudioFile(n) := WavOf(s.segments)], segments := []), Some(AudioFile(n)))
  }

  /**
   * The three outcomes of `save_audio_segment`: nothing kept; at most
   * fourteen groups, which are discarded; or the next audio file holding
   * every kept group in order. Only the groups, the counter and the files change.
   */
  lemma AfterSaveCases(s: Listener)
    ensures AfterSave(s).0 == s.(segments := [], audioFileCount := AfterSave(s).0.audioFileCount,
                                 files := AfterSave(s).0.files)
    ensures AfterSave(s).1.None? <==> |s.segments| <= 14
    ensures AfterSave(s).1.None? ==> AfterSave(s).0 == s.(segments := [])
    ensures AfterSave(s).1.Some? ==>
      AfterSave(s).1.value == AudioFile(s.audioFileCount + 1)
      && AfterSave(s).0 == s.(segments := [], audioFileCount := s.audioFileCount + 1,
                              files := s.files[AudioFile(s.audioFileCount + 1) := WavOf(s.segments)])
  {
    TooShortIff(|s.segments|);
  }

  /**
   * Every saved file holds at least fifteen groups. When each read is a
   * full 4096-byte read, a group is 20480 bytes, so a file holds at least
   * 307200 bytes: 3.2 s of audio, not the 0.6 s the filter names.
   */
  lemma SavedFileLength(s: Listener)
    requires forall k :: 0 <= k < |s.segments| ==> |s.segments[k].audio| == GROUP * 2 * CHUNK
    requires AfterSave(s).1.Some?
    ensures |s.segments| >= 15
    ensures |Concat(WavOf(s.segments).chunks)| >= 15 * GROUP * 2 * CHUNK
  {
    AfterSaveCases(s);
    ConcatLength(Audios(s.segments), GROUP * 2 * CHUNK);
  }

  // ---------------------------------------------------------------------
  // One iteration of audio_listener_loop
  // ---------------------------------------------------------------------

  /** One read from the stream and the clock reading taken for it. */
  datatype Read = Read(data: seq<byte>, now: real)

  /**
   * The buffer and kept groups once the read is buffered: at five reads the
   * joined group is classified, kept when it is speech (which refreshes the
   * activity time), and the buffer is emptied either way.
   */
  function AfterBuffer(s: Listener, r: Read, vad: Detector): Listener {
    var b := s.buffer + [r.data];
    if |b| >= GROUP then
      var raw := Concat(b);
      if VadVerdict(raw, vad) then
        s.(buffer := [], lastActiveTime := r.now, segments := s.segments + [Segment(raw, r.now)])
      else
        s.(buffer := [])
    else
      s.(buffer := b)
  }

  /** The save test: more than 0.8 s since the last kept group, and something kept. */
  predicate SaveDue(s: Listener, now: real) {
    now - s.lastActiveTime > NO_SPEECH_THRESHOLD && s.segments != []
  }

  /** The effect of one read: the new state and the path dispatched to inference. */
  function AfterRead(s: Listener, r: Read, vad: Detector): (Listener, Option<FileName>) {
    if s.isBusy then
      (s.(buffer := []), None)
    else
      var s1 := AfterBuffer(s, r, vad);
      if SaveDue(s1, r.now) then
        var (s2, path) := AfterSave(s1);
        (s2.(isBusy := path.Some?, lastActiveTime := r.now), path)
      else
        (s1, None)
  }

  /** What buffering one read does. */
  lemma AfterBufferCases(s: Listener, r: Read, vad: Detector)
    ensures var t := AfterBuffer(s, r, vad);
      t.isBusy == s.isBusy && t.audioFileCount == s.audioFileCount && t.files == s.files
      // under five reads the read is only buffered
      && (|s.buffer| + 1 < GROUP ==> t == s.(buffer := s.buffer + [r.data]))
      // at five the buffer is emptied; a speech group is kept and refreshes the activity time
      && (|s.buffer| + 1 >= GROUP ==> t.buffer == [])
      && (|s.buffer| + 1 >= GROUP && VadVerdict(Concat(s.buffer + [r.data]), vad) ==>
            t.segments == s.segments + [Segment(Concat(s.buffer + [r.data]), r.now)] && t.lastActiveTime == r.now)
      && (|s.buffer| + 1 >= GROUP && !VadVerdict(Concat(s.buffer + [r.data]), vad) ==>
            t.segments == s.segments && t.lastActiveTime == s.lastActiveTime)
  {
  }

  /** What one read does, case by case. */
  lemma AfterReadCases(s: Listener, r: Read, vad: Detector)
    // while busy the buffer is emptied and nothing else changes
    ensures s.isBusy ==> AfterRead(s, r, vad) == (s.(buffer := []), None)
    // with no save due, the read is only buffered and classified
    ensures !s.isBusy && !SaveDue(AfterBuffer(s, r, vad), r.now) ==>
      AfterRead(s, r, vad) == (AfterBuffer(s, r, vad), None)
    // a save attempt resets the activity time and drops the kept groups, whether or not a file results
    ensures !s.isBusy && SaveDue(AfterBuffer(s, r, vad), r.now) ==>
      AfterRead(s, r, vad).0.lastActiveTime == r.now && AfterRead(s, r, vad).0.segments == []
      && AfterRead(s, r, vad).0.buffer == AfterBuffer(s, r, vad).buffer
      && (AfterRead(s, r, vad).1.Some? <==> |AfterBuffer(s, r, vad).segments| >= 15)
    ensures !s.isBusy && SaveDue(AfterBuffer(s, r, vad), r.now) && AfterRead(s, r, vad).1.Some? ==>
      AfterRead(s, r, vad).1.value == AudioFile(s.audioFileCount + 1)
      && AfterRead(s, r, vad).0.audioFileCount == s.audioFileCount + 1
      && AfterRead(s, r, vad).0.files ==
           s.files[AudioFile(s.audioFileCount + 1) := WavOf(AfterBuffer(s, r, vad).segments)]
    ensures !s.isBusy && SaveDue(AfterBuffer(s, r, vad), r.now) && AfterRead(s, r, vad).1.None? ==>
      AfterRead(s, r, vad).0.audioFileCount == s.audioFileCount && AfterRead(s, r, vad).0.files == s.files
    // the busy flag is raised only together with a dispatched path
    ensures AfterRead(s, r, vad).0.isBusy <==> s.isBusy || AfterRead(s, r, vad).1.Some?
  {
    AfterBufferCases(s, r, vad);
    AfterSaveCases(AfterBuffer(s, r, vad));
  }

  /**
   * The invariant the listener and the pipeline keep together: fewer than
   * five reads wait in the buffer; while busy nothing is kept; the only audio
   * file on disk is the one being processed, and only while busy; no speech
   * file outlives the call that made it.
   */
  ghost predicate Consistent(s: Listener) {
    |s.buffer| < GROUP
    && (s.isBusy ==> s.segments == [])
    && (forall k: nat :: AudioFile(k) in s.files <==> s.isBusy && k == s.audioFileCount)
    && (forall k: nat :: TtsFile(k) !in s.files)
  }

  lemma InitialConsistent(now: real)
    ensures Consistent(Initial(now))
  {
  }

  lemma AfterReadConsistent(s: Listener, r: Read, vad: Detector)
    requires Consistent(s)
    ensures Consistent(AfterRead(s, r, vad).0)
  {
    AfterReadCases(s, r, vad);
    AfterBufferCases(s, r, vad);
  }

  // ---------------------------------------------------------------------
  // Runs of the listener over a sequence of reads
  // ---------------------------------------------------------------------

  function Dispatched(d: Option<FileName>): seq<FileName> {
    if d.Some? then [d.value] else []
  }

  /** The listener fed `rs` in order: the final state and the paths dispatched on the way. */
  function Run(s: Listener, rs: seq<Read>, vad: Detector): (Listener, seq<FileName>)
    decreases |rs|
  {
    if rs == [] then (s, [])
    else
      var step := AfterRead(s, rs[0], vad);
      var rest := Run(step.0, rs[1..], vad);
      (rest.0, Dispatched(step.1) + rest.1)
  }

  lemma {:induction false} RunConsistent(s: Listener, rs: seq<Read>, vad: Detector)
    requires Consistent(s)
    ensures Consistent(Run(s, rs, vad).0)
    decreases |rs|
  {
    if rs != [] {
      AfterReadConsistent(s, rs[0], vad);
      RunConsistent(AfterRead(s, rs[0], vad).0, rs[1..], vad);
    }
  }

  /** While busy, reads are drained from the buffer and change nothing else. */
  lemma {:induction false} BusyDrainsReads(s: Listener, rs: seq<Read>, vad: Detector)
    requires s.isBusy && rs != []
    ensures Run(s, rs, vad) == (s.(buffer := []), [])
    decreases |rs|
  {
    var s1 := s.(buffer := []);
    assert AfterRead(s, rs[0], vad) == (s1, None);
    assert Run(s, rs, vad) == (Run(s1, rs[1..], vad).0, [] + Run(s1, rs[1..], vad).1);
    if |rs| > 1 {
      BusyDrainsReads(s1, rs[1..], vad);
      assert s1.(buffer := []) == s1;
    } else {
      assert rs[1..] == [];
      assert Run(s1, rs[1..], vad) == (s1, []);
      assert Run(s, rs, vad).0 == s1;
      assert |Run(s, rs, vad).1| == 0;
    }
  }

  /**
   * Single flight: without the pipeline clearing the busy flag in between,
   * at most one file is dispatched, and the listener is busy after it.
   */
  lemma {:induction false} AtMostOneDispatch(s: Listener, rs: seq<Read>, vad: Detector)
    ensures |Run(s, rs, vad).1| <= (if s.isBusy then 0 else 1)
    ensures |Run(s, rs, vad).1| == 1 ==> Run(s, rs, vad).0.isBusy
    decreases |rs|
  {
    if rs != [] {
      var (s1, d) := AfterRead(s, rs[0], vad);
      AfterReadCases(s, rs[0], vad);
      if s1.isBusy {
        if |rs| > 1 {
          BusyDrainsReads(s1, rs[1..], vad);
        }
      } else {
        AtMostOneDispatch(s1, rs[1..], vad);
      }
    }
  }

  /** Every read is 2 * CHUNK bytes. */
  predicate FullReads(rs: seq<Read>) {
    forall k :: 0 <= k < |rs| ==> |rs[k].data| == 2 * CHUNK
  }

  /** Buffered reads are full reads and kept groups are five of them. */
  ghost predicate WellSized(s: Listener) {
    (forall k :: 0 <= k < |s.buffer| ==> |s.buffer[k]| == 2 * CHUNK)
    && (forall k :: 0 <= k < |s.segments| ==> |s.segments[k].audio| == GROUP * 2 * CHUNK)
  }

  lemma AfterReadWellSized(s: Listener, r: Read, vad: Detector)
    requires WellSized(s) && |s.buffer| < GROUP && |r.data| == 2 * CHUNK
    ensures WellSized(AfterRead(s, r, vad).0)
  {
    AfterReadCases(s, r, vad);
    AfterBufferCases(s, r, vad);
    var b := s.buffer + [r.data];
    if |b| >= GROUP {
      ConcatLength(b, 2 * CHUNK);
    }
  }

  /**
   * From a consistent, well-sized state, full reads keep the state well
   * sized, so every file the listener writes holds at least 3.2 s of audio.
   */
  lemma {:induction false} RunWellSized(s: Listener, rs: seq<Read>, vad: Detector)
    requires Consistent(s) && WellSized(s) && FullReads(rs)
    ensures WellSized(Run(s, rs, vad).0)
    decreases |rs|
  {
    if rs != [] {
      AfterReadWellSized(s, rs[0], vad);
      AfterReadConsistent(s, rs[0], vad);
      RunWellSized(AfterRead(s, rs[0], vad).0, rs[1..], vad);
    }
  }

  // ---------------------------------------------------------------------
  // process_inference
  // ---------------------------------------------------------------------

  /** How `process_inference` left: which exit it took. */
  datatype Exit =
    | InvalidPath
    | AsrRaised
    | Ignored(text: string)
    | LlmRaised
    | Answered(reply: string, spoken: bool)

  /** The two filters: a short filler word or punctuation mark, or empty text. */
  predicate IgnoredText(text: string) {
    (|text| < 2 && text in ["\U{55EF}", "\U{554A}", "\U{54E6}", "\U{3002}", "\U{FF1F}"]) || text == ""
  }

  /** The length test adds nothing: every listed word is one character long. */
  lemma IgnoredTextIff(text: string)
    ensures IgnoredText(text) <==> text in ["", "\U{55EF}", "\U{554A}", "\U{54E6}", "\U{3002}", "\U{FF1F}"]
  {
  }

  /**
   * The exit `process_inference` takes once the audio file exists: the
   * recogniser raises; the cleaned text is ignored; the language model
   * raises; or the reply comes back and, when it is not empty, is spoken.
   */
  function Outcome(asr: Stage<string>, llm: Stage<string>, tts: Synthesis): Exit {
    match asr
    case Raised => AsrRaised
    case Returned(rawText) =>
      var userText := CleanAsrText(rawText);
      if IgnoredText(userText) then Ignored(userText)
      else Reply(llm, tts)
  }

  /** The exit once the text passed the filter: the language model raises, or its reply is spoken when not empty. */
  function Reply(llm: Stage<string>, tts: Synthesis): Exit {
    match llm
    case Raised => LlmRaised
    case Returned(reply) => Answered(reply, reply != "" && tts == Synthesized(false))
  }

  /** Which exit is taken, in terms of the three oracles. */
  lemma OutcomeCases(asr: Stage<string>, llm: Stage<string>, tts: Synthesis)
    ensures var e := Outcome(asr, llm, tts);
      (e.AsrRaised? <==> asr.Raised?)
      && (e.Ignored? <==> asr.Returned? && IgnoredText(CleanAsrText(asr.value)))
      && (e.Ignored? ==> e.text == CleanAsrText(asr.value) && |e.text| <= 1)
      && (e.LlmRaised? <==> asr.Returned? && !IgnoredText(CleanAsrText(asr.value)) && llm.Raised?)
      && (e.Answered? <==> asr.Returned? && !IgnoredText(CleanAsrText(asr.value)) && llm.Returned?)
      && (e.Answered? ==> e.reply == llm.value && (e.spoken <==> e.reply != "" && tts == Synthesized(false)))
      && !e.InvalidPath?
  {
  }

  /** The speech file the reply is synthesized into, if any is made. */
  function SpeechFileOf(count: nat, e: Exit): set<FileName> {
    if e.Answered? && e.reply != "" then {TtsFile(count)} else {}
  }

  /**
   * `process_inference(path)`: with no such file the busy flag is cleared and
   * nothing else happens; otherwise the pipeline runs, and then the audio
   * file and any speech file are removed and the busy flag is cleared.
   */
  function AfterInference(s: Listener, path: Option<FileName>, asr: Stage<string>, llm: Stage<string>, tts: Synthesis)
    : (Listener, Exit)
  {
    if path.None? || path.value !in s.files then (s.(isBusy := false), InvalidPath)
    else
      var e := Outcome(asr, llm, tts);
      (s.(isBusy := false, files := s.files - SpeechFileOf(s.audioFileCount, e) - {path.value}), e)
  }

  /** What `process_inference` leaves behind, whatever the oracles did. */
  lemma InferenceCleansUp(s: Listener, path: Option<FileName>, asr: Stage<string>, llm: Stage<string>, tts: Synthesis)
    ensures var (t, e) := AfterInference(s, path, asr, llm, tts);
      !t.isBusy
      && t.buffer == s.buffer && t.segments == s.segments
      && t.lastActiveTime == s.lastActiveTime && t.audioFileCount == s.audioFileCount
      && (e.InvalidPath? <==> path.None? || path.value !in s.files)
      && (e.InvalidPath? ==> t.files == s.files)
      && (!e.InvalidPath? ==> path.value !in t.files)
      && (forall f :: f in t.files ==> f in s.files && t.files[f] == s.files[f])
      && (forall f :: f in s.files && !(path.Some? && f == path.value) && !f.TtsFile? ==> f in t.files)
  {
  }

  /**
   * Run on the file the listener dispatched, the pipeline takes a real exit
   * and leaves the listener idle and consistent, with no file left behind.
   */
  lemma InferenceRestoresConsistency(s: Listener, asr: Stage<string>, llm: Stage<string>, tts: Synthesis)
    requires Consistent(s) && s.isBusy
    ensures var (t, e) := AfterInference(s, Some(AudioFile(s.audioFileCount)), asr, llm, tts);
      Consistent(t) && !e.InvalidPath? && !t.isBusy && t.files == map[]
  {
    var r := AfterInference(s, Some(AudioFile(s.audioFileCount)), asr, llm, tts);
    assert AudioFile(s.audioFileCount) in s.files;
    assert forall f :: f !in r.0.files by {
      forall f ensures f !in r.0.files {
        if f in s.files {
          match f
          case AudioFile(k) =>
          case TtsFile(k) =>
        }
      }
    }
  }

  // ---------------------------------------------------------------------
  // The assistant object
  // ---------------------------------------------------------------------

  class Assistant {
    var isBusy: bool
    /** The `audio_buffer` local of `audio_listener_loop`, kept across iterations. */
    var audioBuffer: seq<seq<byte>>
    var segmentsToSave: seq<Segment>
    var lastActiveTime: real
    var audioFileCount: nat
    /** The files this process has written to OUTPUT_DIR and not yet removed. */
    var files: map<FileName, File>

    function State(): Listener
      reads this
    {
      Listener(isBusy, audioBuffer, segmentsToSave, lastActiveTime, audioFileCount, files)
    }

    /** `__init__`, with the clock reading `now`; the loop starts with an empty buffer. */
    constructor (now: real)
      ensures State() == Initial(now)
    {
      isBusy := false;
      audioBuffer := [];
      segmentsToSave := [];
      lastActiveTime := now;
      audioFileCount := 0;
      files := map[];
    }

    /** `save_audio_segment` */
    method SaveAudioSegment() returns (path: Option<FileName>)
      modifies this
      ensures (State(), path) == AfterSave(old(State()))
    {
      if segmentsToSave == [] {
        return None;
      }
      if Duration(|segmentsToSave|) < MIN_DURATION {
        segmentsToSave := [];
        return None;
      }
      audioFileCount := audioFileCount + 1;
      var filename := AudioFile(audioFileCount);
      files := files[filename := WavOf(segmentsToSave)];
      segmentsToSave := [];
      path := Some(filename);
    }

    /** The body of the `while self.running` loop of `audio_listener_loop`, for one read at `now`. */
    method ListenerIteration(data: seq<byte>, now: real, vad: Detector) returns (dispatched: Option<FileName>)
      modifies this
      ensures (State(), dispatched) == AfterRead(old(State()), Read(data, now), vad)
    {
      dispatched := None;
      if isBusy {
        audioBuffer := [];
        return;
      }
      audioBuffer := audioBuffer + [data];
      if |audioBuffer| >= GROUP {
        var rawAudio := Concat(audioBuffer);
        var isSpeech := CheckVadActivity(rawAudio, vad);
        if isSpeech {
          lastActiveTime := now;
          segmentsToSave := segmentsToSave + [Segment(rawAudio, now)];
        }
        audioBuffer := [];
      }
      if now - lastActiveTime > NO_SPEECH_THRESHOLD {
        if segmentsToSave != [] {
          var wavPath := SaveAudioSegment();
          if wavPath.Some? {
            isBusy := true;
            dispatched := wavPath;
          }
          lastActiveTime := now;
        }
      }
    }

    /**
     * `text_to_speech_and_play`: synthesize `text` into the speech file, play
     * it, and remove the file whatever happened. Returns whether playback finished.
     */
    method TextToSpeechAndPlay(text: string, tts: Synthesis) returns (spoken: bool)
      modifies this
      ensures files == old(files) - {TtsFile(audioFileCount)}
      ensures isBusy == old(isBusy) && audioBuffer == old(audioBuffer) && segmentsToSave == old(segmentsToSave)
      ensures lastActiveTime == old(lastActiveTime) && audioFileCount == old(audioFileCount)
      ensures spoken <==> tts == Synthesized(false)
    {
      var ttsFile := TtsFile(audioFileCount);
      match tts {
        case SynthesisRaised(leftFile) =>
          if leftFile {
            files := files[ttsFile := Speech(text, VOICE)];
          }
          spoken := false;
        case Synthesized(playbackRaised) =>
          files := files[ttsFile := Speech(text, VOICE)];
          spoken := !playbackRaised;
      }
      // finally
      if ttsFile in files {
        files := files - {ttsFile};
      }
    }

    /** The language-model and speech steps of the `try` block, on text that passed the filter. */
    method ReplyAndSpeak(llm: Stage<string>, tts: Synthesis) returns (exit: Exit)
      modifies this
      ensures exit == Reply(llm, tts)
      ensures files == old(files) - SpeechFileOf(audioFileCount, exit)
      ensures isBusy == old(isBusy) && audioBuffer == old(audioBuffer) && segmentsToSave == old(segmentsToSave)
      ensures lastActiveTime == old(lastActiveTime) && audioFileCount == old(audioFileCount)
    {
      match llm {
        case Raised =>
          exit := LlmRaised;
        case Returned(aiResponse) =>
          var spoken := false;
          if aiResponse != "" {
            spoken := TextToSpeechAndPlay(aiResponse, tts);
          }
          exit := Answered(aiResponse, spoken);
      }
    }

    /**
     * The `try` block of `process_inference`: recognise, filter, ask the
     * language model and speak the reply. Only the speech file is touched.
     */
    method Pipeline(asr: Stage<string>, llm: Stage<string>, tts: Synthesis) returns (exit: Exit)
      modifies this
      ensures exit == Outcome(asr, llm, tts)
      ensures files == old(files) - SpeechFileOf(audioFileCount, exit)
      ensures isBusy == old(isBusy) && audioBuffer == old(audioBuffer) && segmentsToSave == old(segmentsToSave)
      ensures lastActiveTime == old(lastActiveTime) && audioFileCount == old(audioFileCount)
    {
      match asr {
        case Raised =>
          exit := AsrRaised;
        case Returned(rawText) =>
          var userText := CleanAsrText(rawText);
          if |userText| < 2 && userText in ["\U{55EF}", "\U{554A}", "\U{54E6}", "\U{3002}", "\U{FF1F}"] {
            assert IgnoredText(userText);
            return Ignored(userText);
          }
          if userText == "" {
            return Ignored(userText);
          }
          assert !IgnoredText(userText);
          exit := ReplyAndSpeak(llm, tts);
      }
    }

    /**
     * `process_inference` run on the path the listener dispatched (`None`
     * for a path that is `None` or empty), with the results of speech
     * recognition, the language model and speech synthesis given as oracles.
     */
    method ProcessInference(path: Option<FileName>, asr: Stage<string>, llm: Stage<string>, tts: Synthesis)
      returns (exit: Exit)
      modifies this
      ensures (State(), exit) == AfterInference(old(State()), path, asr, llm, tts)
    {
      if path.None? || path.value !in files {
        isBusy := false;
        return InvalidPath;
      }
      exit := Pipeline(asr, llm, tts);
      // finally
      if path.value in files {
        files := files - {path.value};
      } else {
        assert files == files - {path.value};
      }
      isBusy := false;
    }
  }
}
