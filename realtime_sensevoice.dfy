/**
 * The real-time transcription script: pick a sample rate the input device
 * accepts, wait for the first chunk louder than the RMS threshold, record
 * from there until the first half-second queue timeout that comes more than
 * the silence timeout after the last loud chunk (or a stop request, or
 * Ctrl-C), then write the recording to a temporary wave file and transcribe it.
 */
module RealtimeSenseVoice {
  import opened SpeechCommon

  /** The rates tried, in order, when neither the requested rate nor the device default is accepted. */
  const CANDIDATES: seq<int> := [16000, 22050, 32000, 44100, 48000]

  /** Whether `check_input_settings(device=device, samplerate=r)` returns without raising. */
  type RateCheck = int -> bool

  // ---------------------------------------------------------------------
  // choose_samplerate
  // ---------------------------------------------------------------------

  /** The first rate of `cs` the device accepts. */
  function FirstPassing(cs: seq<int>, check: RateCheck): Option<int>
    decreases |cs|
  {
    if cs == [] then None
    else if check(cs[0]) then Some(cs[0])
    else FirstPassing(cs[1..], check)
  }

  /** The first accepted rate is accepted and every rate before it is not; with none, no rate was accepted. */
  lemma {:induction false} FirstPassingCases(cs: seq<int>, check: RateCheck)
    ensures FirstPassing(cs, check).None? <==> forall j :: 0 <= j < |cs| ==> !check(cs[j])
    ensures FirstPassing(cs, check).Some? ==>
      exists k :: 0 <= k < |cs| && cs[k] == FirstPassing(cs, check).value && check(cs[k])
        && forall j :: 0 <= j < k ==> !check(cs[j])
    decreases |cs|
  {
    if cs != [] && !check(cs[0]) {
      var t := cs[1..];
      FirstPassingCases(t, check);
      assert forall j :: 1 <= j < |cs| ==> cs[j] == t[j - 1];
      if FirstPassing(t, check).Some? {
        var k :| 0 <= k < |t| && t[k] == FirstPassing(t, check).value && check(t[k])
          && forall j :: 0 <= j < k ==> !check(t[j]);
        assert cs[k + 1] == t[k];
      }
    }
  }

  /**
   * `choose_samplerate(device, requested)`: the requested rate if there is
   * one and the device accepts it; else `int(default)` when the device
   * reports a positive default rate the device accepts (`deviceDefault` is
   * None when the query raises or reports no default); else the first
   * accepted candidate; None stands for the RuntimeError.
   */
  function ChosenRate(requested: Option<int>, deviceDefault: Option<real>, check: RateCheck): Option<int> {
    if requested.Some? && check(requested.value) then requested
    else if deviceDefault.Some? && deviceDefault.value > 0.0 && check(deviceDefault.value.Floor) then
      Some(deviceDefault.value.Floor)
    else FirstPassing(CANDIDATES, check)
  }

  /** The fallback order, and that any rate chosen has been accepted by the device. */
  lemma ChosenRateCases(requested: Option<int>, deviceDefault: Option<real>, check: RateCheck)
    ensures var r := ChosenRate(requested, deviceDefault, check);
      (r.Some? ==> check(r.value))
      && (requested.Some? && check(requested.value) ==> r == requested)
      && (!(requested.Some? && check(requested.value))
          && deviceDefault.Some? && deviceDefault.value > 0.0 && check(deviceDefault.value.Floor)
          ==> r == Some(deviceDefault.value.Floor))
      && (r.None? <==>
            !(requested.Some? && check(requested.value))
            && !(deviceDefault.Some? && deviceDefault.value > 0.0 && check(deviceDefault.value.Floor))
            && forall j :: 0 <= j < |CANDIDATES| ==> !check(CANDIDATES[j]))
      // with neither accepted, the first accepted candidate in the fixed order
      && (!(requested.Some? && check(requested.value))
          && !(deviceDefault.Some? && deviceDefault.value > 0.0 && check(deviceDefault.value.Floor))
          ==> r == FirstPassing(CANDIDATES, check))
  {
    FirstPassingCases(CANDIDATES, check);
  }

  /** When the device accepts 16000, a rate is always found. */
  lemma SixteenKilohertzSuffices(requested: Option<int>, deviceDefault: Option<real>, check: RateCheck)
    requires check(16000)
    ensures ChosenRate(requested, deviceDefault, check).Some?
  {
    assert CANDIDATES[0] == 16000;
    ChosenRateCases(requested, deviceDefault, check);
  }

  /** `choose_samplerate`, with the device check and the device default given as oracles. */
  method ChooseSamplerate(requested: Option<int>, deviceDefault: Option<real>, check: RateCheck)
    returns (rate: Option<int>)
    ensures rate == ChosenRate(requested, deviceDefault, check)
  {
    if requested.Some? && check(requested.value) {
      return Some(requested.value);
    }
    if deviceDefault.Some? && deviceDefault.value > 0.0 {
      var default := deviceDefault.value.Floor;
      if check(default) {
        return Some(default);
      }
    }
    var k := 0;
    while k < |CANDIDATES|
      invariant 0 <= k <= |CANDIDATES|
      invariant FirstPassing(CANDIDATES[k..], check) == FirstPassing(CANDIDATES, check)
    {
      if check(CANDIDATES[k]) {
        return Some(CANDIDATES[k]);
      }
      assert CANDIDATES[k..][1..] == CANDIDATES[k + 1..];
      k := k + 1;
    }
    return None;
  }

  // ---------------------------------------------------------------------
  // The RMS test
  // ---------------------------------------------------------------------

  function SumSquares(c: seq<Sample>): (r: nat)
    decreases |c|
  {
    if c == [] then 0 else c[0] * c[0] + SumSquares(c[1..])
  }

  /**
   * `sqrt(mean(chunk ** 2)) > threshold`. The mean of an empty chunk is NaN,
   * which is above nothing; an RMS is never negative, so for a threshold of
   * at least 0 the test is `mean square > threshold ** 2`, cross-multiplied.
   */
  predicate Loud(c: seq<Sample>, threshold: real) {
    |c| > 0 && (threshold < 0.0 || SumSquares(c) as real > threshold * threshold * |c| as real)
  }

  /** For a threshold of at least 0, a chunk is loud iff its mean square exceeds the threshold squared. */
  lemma LoudIffMeanSquareAbove(c: seq<Sample>, threshold: real)
    requires |c| > 0 && threshold >= 0.0
    ensures Loud(c, threshold) <==> SumSquares(c) as real / |c| as real > threshold * threshold
  {
    var n, m := |c| as real, SumSquares(c) as real / |c| as real;
    assert m * n == SumSquares(c) as real;
    var d := m - threshold * threshold;
    assert d * n == SumSquares(c) as real - threshold * threshold * n;
    if d > 0.0 {
      assert d * n > 0.0;
    } else {
      assert d * n <= 0.0;
    }
  }

  /** A silent chunk is never loud for a threshold of at least 0. */
  lemma SilenceIsQuiet(n: nat, threshold: real)
    requires threshold >= 0.0
    ensures !Loud(seq(n, _ => 0), threshold)
  {
    var c: seq<Sample> := seq(n, _ => 0);
    SilenceSumsToZero(n);
  }

  lemma {:induction false} SilenceSumsToZero(n: nat)
    ensures SumSquares(seq(n, _ => 0)) == 0
  {
    if n > 0 {
      var c: seq<Sample> := seq(n, _ => 0);
      assert c[1..] == seq(n - 1, _ => 0);
      SilenceSumsToZero(n - 1);
    }
  }

  // ---------------------------------------------------------------------
  // The listening loop of record_session
  // ---------------------------------------------------------------------

  /**
   * What one `q.get(timeout=0.5)` brought, with the clock read for it: a
   * chunk; `queue.Empty` after half a second, with whether Enter had been
   * pressed by then; or a KeyboardInterrupt.
   */
  datatype Event =
    | Got(chunk: seq<Sample>, now: real)
    | Empty(now: real, stopSet: bool)
    | Interrupted

  /** Why the loop ended. */
  datatype EndReason = StopRequested | SilenceEnd | KeyboardInterrupt

  /** The loop's variables. */
  datatype Session = Session(recording: bool, buffer: seq<Sample>, lastSpokenTime: Option<real>)

  const Start := Session(false, [], None)

  /** One pass of the `while True` loop: the new variables, and the reason if it breaks. */
  function Step(s: Session, e: Event, threshold: real, silence: real): (Session, Option<EndReason>) {
    match e
    case Interrupted => (s, Some(KeyboardInterrupt))
    case Empty(now, stopSet) =>
      if stopSet then (s, Some(StopRequested))
      else if s.recording && s.lastSpokenTime.Some? && now - s.lastSpokenTime.value > silence then
        (s, Some(SilenceEnd))
      else (s, None)
    case Got(chunk, now) =>
      if !s.recording then
        if Loud(chunk, threshold) then (Session(true, s.buffer + chunk, Some(now)), None)
        else (s, None)
      else
        (s.(buffer := s.buffer + chunk, lastSpokenTime := if Loud(chunk, threshold) then Some(now) else s.lastSpokenTime), None)
  }

  /** The loop over `evs`: the variables when it broke (or when `evs` ran out) and the reason it broke. */
  function Listen(s: Session, evs: seq<Event>, threshold: real, silence: real): (Session, Option<EndReason>)
    decreases |evs|
  {
    if evs == [] then (s, None)
    else
      var (s1, stop) := Step(s, evs[0], threshold, silence);
      if stop.Some? then (s1, stop) else Listen(s1, evs[1..], threshold, silence)
  }

  /** What one pass does, case by case. */
  lemma StepCases(s: Session, e: Event, threshold: real, silence: real)
    ensures var (t, stop) := Step(s, e, threshold, silence);
      // a break changes no variable
      (stop.Some? ==> t == s)
      // the stop request is checked before the silence test
      && (e.Empty? && e.stopSet ==> stop == Some(StopRequested))
      // otherwise a queue timeout before the silence end changes nothing and the loop goes on
      && (e.Empty? && !e.stopSet
          && !(s.recording && s.lastSpokenTime.Some? && e.now - s.lastSpokenTime.value > silence)
          ==> t == s && stop.None?)
      // Ctrl-C ends the session
      && (e.Interrupted? ==> stop == Some(KeyboardInterrupt))
      // a silence end only on a queue timeout, while recording, strictly after the timeout
      && (stop == Some(SilenceEnd) <==>
            e.Empty? && !e.stopSet && s.recording && s.lastSpokenTime.Some?
            && e.now - s.lastSpokenTime.value > silence)
      // before speech, quiet chunks are dropped; the first loud one starts the recording
      && (e.Got? && !s.recording && !Loud(e.chunk, threshold) ==> t == s && stop.None?)
      && (e.Got? && !s.recording && Loud(e.chunk, threshold) ==>
            t == Session(true, s.buffer + e.chunk, Some(e.now)) && stop.None?)
      // while recording every chunk is appended, and only a loud one refreshes the time
      && (e.Got? && s.recording ==> t.recording && t.buffer == s.buffer + e.chunk && stop.None?)
      && (e.Got? && s.recording && Loud(e.chunk, threshold) ==> t.lastSpokenTime == Some(e.now))
      && (e.Got? && s.recording && !Loud(e.chunk, threshold) ==> t.lastSpokenTime == s.lastSpokenTime)
  {
  }

  /** Recording, and only recording, has a time of last speech; before it the buffer is empty. */
  ghost predicate Coherent(s: Session) {
    (s.recording <==> s.lastSpokenTime.Some?) && (!s.recording ==> s.buffer == [])
  }

  lemma {:induction false} ListenCoherent(s: Session, evs: seq<Event>, threshold: real, silence: real)
    requires Coherent(s)
    ensures Coherent(Listen(s, evs, threshold, silence).0)
    decreases |evs|
  {
    if evs != [] {
      StepCases(s, evs[0], threshold, silence);
      ListenCoherent(Step(s, evs[0], threshold, silence).0, evs[1..], threshold, silence);
    }
  }

  /**
   * A silence end needs a queue timeout: the loop ends by silence only on an
   * `Empty` event without a stop request. So while chunks keep arriving the
   * session never ends by silence, however quiet they are.
   */
  lemma {:induction false} SilenceEndNeedsTimeout(s: Session, evs: seq<Event>, threshold: real, silence: real)
    requires Listen(s, evs, threshold, silence).1 == Some(SilenceEnd)
    ensures exists k :: 0 <= k < |evs| && evs[k].Empty? && !evs[k].stopSet
    decreases |evs|
  {
    var (s1, stop) := Step(s, evs[0], threshold, silence);
    StepCases(s, evs[0], threshold, silence);
    if stop.None? {
      SilenceEndNeedsTimeout(s1, evs[1..], threshold, silence);
      var k :| 0 <= k < |evs[1..]| && evs[1..][k].Empty? && !evs[1..][k].stopSet;
      assert evs[k + 1] == evs[1..][k];
    } else {
      assert evs[0].Empty? && !evs[0].stopSet;
    }
  }

  /** The samples of a run of chunks, concatenated. */
  function Samples(evs: seq<Event>): seq<Sample>
    requires forall k :: 0 <= k < |evs| ==> evs[k].Got?
    decreases |evs|
  {
    if evs == [] then [] else evs[0].chunk + Samples(evs[1..])
  }

  /** Before speech, chunks no louder than the threshold leave the variables as they are. */
  lemma {:induction false} QuietBeforeSpeech(s: Session, evs: seq<Event>, threshold: real, silence: real)
    requires !s.recording
    requires forall k :: 0 <= k < |evs| ==> evs[k].Got? && !Loud(evs[k].chunk, threshold)
    ensures Listen(s, evs, threshold, silence) == (s, None)
    decreases |evs|
  {
    if evs != [] {
      StepCases(s, evs[0], threshold, silence);
      QuietBeforeSpeech(s, evs[1..], threshold, silence);
    }
  }

  /** While recording, every arriving chunk is appended. */
  lemma {:induction false} RecordingAppendsAll(s: Session, evs: seq<Event>, threshold: real, silence: real)
    requires s.recording
    requires forall k :: 0 <= k < |evs| ==> evs[k].Got?
    ensures Listen(s, evs, threshold, silence).1.None?
    ensures Listen(s, evs, threshold, silence).0.recording
    ensures Listen(s, evs, threshold, silence).0.buffer == s.buffer + Samples(evs)
    decreases |evs|
  {
    if evs == [] {
      assert s.buffer + Samples(evs) == s.buffer;
    } else {
      var (s1, stop) := Step(s, evs[0], threshold, silence);
      assert s1.recording && s1.buffer == s.buffer + evs[0].chunk && stop.None?;
      RecordingAppendsAll(s1, evs[1..], threshold, silence);
      var c, tail := evs[0].chunk, Samples(evs[1..]);
      assert Samples(evs) == c + tail;
      assert (s.buffer + c) + tail == s.buffer + (c + tail);
    }
  }

  /**
   * The recording starts at the first loud chunk: from the start, quiet
   * chunks, then a loud one, then any chunks, leave exactly the loud chunk
   * and everything after it in the buffer.
   */
  lemma BufferStartsAtFirstLoud(quiet: seq<Event>, first: Event, rest: seq<Event>, threshold: real, silence: real)
    requires forall k :: 0 <= k < |quiet| ==> quiet[k].Got? && !Loud(quiet[k].chunk, threshold)
    requires first.Got? && Loud(first.chunk, threshold)
    requires forall k :: 0 <= k < |rest| ==> rest[k].Got?
    ensures Listen(Start, quiet + [first] + rest, threshold, silence).0.buffer == first.chunk + Samples(rest)
    ensures Listen(Start, quiet + [first] + rest, threshold, silence).1.None?
  {
    var evs := quiet + [first] + rest;
    QuietBeforeSpeech(Start, quiet, threshold, silence);
    ListenAppend(Start, quiet, [first] + rest, threshold, silence);
    assert evs == quiet + ([first] + rest);
    var s1 := Session(true, first.chunk, Some(first.now));
    assert Start.buffer + first.chunk == first.chunk;
    assert Step(Start, first, threshold, silence) == (s1, None);
    assert ([first] + rest)[1..] == rest;
    RecordingAppendsAll(s1, rest, threshold, silence);
  }

  /** A loop that has not broken on `a` carries on with `b` from where it was. */
  lemma {:induction false} ListenAppend(s: Session, a: seq<Event>, b: seq<Event>, threshold: real, silence: real)
    requires Listen(s, a, threshold, silence).1.None?
    ensures Listen(s, a + b, threshold, silence) == Listen(Listen(s, a, threshold, silence).0, b, threshold, silence)
    decreases |a|
  {
    if a == [] {
      assert a + b == b;
    } else {
      assert (a + b)[0] == a[0] && (a + b)[1..] == a[1..] + b;
      ListenAppend(Step(s, a[0], threshold, silence).0, a[1..], b, threshold, silence);
    }
  }

  /**
   * The `with sd.InputStream(...)` block: the loop over the queue, with the
   * events it sees given in order. `stop` is the reason it broke, or None
   * while it is still waiting in `q.get` after the last event.
   */
  method ListenLoop(evs: seq<Event>, threshold: real, silence: real)
    returns (recording: bool, buffer: seq<Sample>, lastSpokenTime: Option<real>, stop: Option<EndReason>)
    ensures (Session(recording, buffer, lastSpokenTime), stop) == Listen(Start, evs, threshold, silence)
  {
    recording, buffer, lastSpokenTime, stop := false, [], None, None;
    var i := 0;
    while i < |evs|
      invariant 0 <= i <= |evs|
      invariant Listen(Session(recording, buffer, lastSpokenTime), evs[i..], threshold, silence)
             == Listen(Start, evs, threshold, silence)
      decreases |evs| - i
    {
      assert evs[i..][1..] == evs[i + 1..];
      match evs[i] {
        case Interrupted =>
          stop := Some(KeyboardInterrupt);
          return;
        case Empty(now, stopSet) =>
          if stopSet {
            stop := Some(StopRequested);
            return;
          }
          if recording && lastSpokenTime.Some? && now - lastSpokenTime.value > silence {
            stop := Some(SilenceEnd);
            return;
          }
        case Got(chunk, now) =>
          if !recording {
            if Loud(chunk, threshold) {
              recording := true;
              buffer := buffer + chunk;
              lastSpokenTime := Some(now);
            }
          } else {
            buffer := buffer + chunk;
            if Loud(chunk, threshold) {
              lastSpokenTime := Some(now);
            }
          }
      }
      i := i + 1;
    }
    assert evs[i..] == [];
  }

  // ---------------------------------------------------------------------
  // record_session
  // ---------------------------------------------------------------------

  /** The temporary wave file: the rate written in its header and its samples. */
  datatype Recording = Recording(rate: int, samples: seq<Sample>)

  /**
   * Where `record_session` is after the given events: still blocked in the
   * `while True` loop, because none of them broke it; or finished, with the
   * exit code it returned (None when the recogniser raised, which escapes the
   * function after the temporary file is removed) and the recording written,
   * if any.
   */
  datatype SessionResult =
    | StillListening
    | Finished(code: Option<int>, written: Option<Recording>)

  /**
   * `record_session` as written: the stream is opened at the chosen rate,
   * but the wave file is written with the `samplerate` argument.
   */
  function SessionAsWritten(samplerate: int, deviceDefault: Option<real>, check: RateCheck,
                            evs: seq<Event>, threshold: real, silence: real, asr: Stage<string>): SessionResult
  {
    match ChosenRate(Some(samplerate), deviceDefault, check)
    case None => Finished(Some(1), None)
    case Some(_) =>
      var (s, stop) := Listen(Start, evs, threshold, silence);
      if stop.None? then StillListening
      else if s.buffer == [] then Finished(Some(1), None)
      else Finished(if asr.Raised? then None else Some(0), Some(Recording(samplerate, s.buffer)))
  }

  /**
   * `record_session` with the wave file written at the rate the stream was
   * opened with. Exit code 1 when no rate is accepted (nothing is recorded)
   * or when the loop broke with no speech captured; 0 after a transcription.
   */
  function SessionOutcome(samplerate: int, deviceDefault: Option<real>, check: RateCheck,
                          evs: seq<Event>, threshold: real, silence: real, asr: Stage<string>): SessionResult
  {
    match ChosenRate(Some(samplerate), deviceDefault, check)
    case None => Finished(Some(1), None)
    case Some(used) =>
      var (s, stop) := Listen(Start, evs, threshold, silence);
      if stop.None? then StillListening
      else if s.buffer == [] then Finished(Some(1), None)
      else Finished(if asr.Raised? then None else Some(0), Some(Recording(used, s.buffer)))
  }

  /**
   * The session finishes only once a rate is refused or the loop broke. The
   * exit codes, and the recording: it is written exactly when a rate was
   * found, the loop broke and speech was captured; it holds the captured
   * samples; and its header carries the rate the device recorded at.
   */
  lemma SessionCases(samplerate: int, deviceDefault: Option<real>, check: RateCheck,
                     evs: seq<Event>, threshold: real, silence: real, asr: Stage<string>)
    ensures var r := SessionOutcome(samplerate, deviceDefault, check, evs, threshold, silence, asr);
      var used := ChosenRate(Some(samplerate), deviceDefault, check);
      var (s, stop) := Listen(Start, evs, threshold, silence);
      (used.None? ==> r == Finished(Some(1), None))
      && (r.StillListening? <==> used.Some? && stop.None?)
      && (used.Some? && stop.Some? && s.buffer == [] ==> r == Finished(Some(1), None))
      && (r.Finished? && r.written.Some? <==> used.Some? && stop.Some? && s.buffer != [])
      && (r.Finished? && r.written.Some? ==>
            r.written.value == Recording(used.value, s.buffer) && check(r.written.value.rate))
      && (r.Finished? ==> (r.code == Some(0) <==> r.written.Some? && asr.Returned?))
      && (r.Finished? ==> (r.code.None? <==> r.written.Some? && asr.Raised?))
  {
    ChosenRateCases(Some(samplerate), deviceDefault, check);
    var l := Listen(Start, evs, threshold, silence);
    var r := SessionOutcome(samplerate, deviceDefault, check, evs, threshold, silence, asr);
    if ChosenRate(Some(samplerate), deviceDefault, check).Some? && l.1.Some? && l.0.buffer != [] {
      assert r.Finished? && r.written.Some?;
    }
  }

  /**
   * As written, the header rate can differ from the recording rate: asked
   * for 16000, a device that only accepts its default of 44100 records at
   * 44100; after one loud chunk and a stop request the file claims 16000,
   * so it plays 2.76 times too slow. Written at the rate used, it says 44100.
   */
  lemma HeaderRateMismatch()
    ensures var check: RateCheck := r => r == 44100;
      var evs := [Got([1000], 0.0), Empty(0.5, true)];
      ChosenRate(Some(16000), Some(44100.0), check) == Some(44100)
      && SessionAsWritten(16000, Some(44100.0), check, evs, 300.0, 1.5, Returned(""))
         == Finished(Some(0), Some(Recording(16000, [1000])))
      && SessionOutcome(16000, Some(44100.0), check, evs, 300.0, 1.5, Returned(""))
         == Finished(Some(0), Some(Recording(44100, [1000])))
  {
    var check: RateCheck := r => r == 44100;
    var evs := [Got([1000], 0.0), Empty(0.5, true)];
    assert SumSquares([1000]) == 1000000;
    assert Loud([1000], 300.0);
    var s1 := Session(true, [1000], Some(0.0));
    assert Start.buffer + [1000] == [1000];
    assert Step(Start, evs[0], 300.0, 1.5) == (s1, None);
    assert evs[1..] == [Empty(0.5, true)];
    assert Listen(s1, evs[1..], 300.0, 1.5) == (s1, Some(StopRequested));
    assert Listen(Start, evs, 300.0, 1.5) == (s1, Some(StopRequested));
  }

  /** `record_session`, with the device, the queue and the recogniser given as oracles. */
  method RecordSession(samplerate: int, deviceDefault: Option<real>, check: RateCheck,
                       evs: seq<Event>, threshold: real, silence: real, asr: Stage<string>)
    returns (result: SessionResult)
    ensures result == SessionOutcome(samplerate, deviceDefault, check, evs, threshold, silence, asr)
  {
    var usedSamplerate := ChooseSamplerate(Some(samplerate), deviceDefault, check);
    if usedSamplerate.None? {
      return Finished(Some(1), None);
    }
    var recording, buffer, lastSpokenTime, stop := ListenLoop(evs, threshold, silence);
    if stop.None? {
      return StillListening;
    }
    if buffer == [] {
      return Finished(Some(1), None);
    }
    var written := Recording(usedSamplerate.value, buffer);
    match asr {
      case Raised =>
        result := Finished(None, Some(written));
      case Returned(_) =>
        result := Finished(Some(0), Some(written));
    }
  }
}
