# VoicePilot speech front end, modelled in Dafny

VoicePilot is a voice assistant for small boards. A listener thread reads
microphone chunks and cuts them into utterances. Each utterance is saved as a
wave file in `./output`, and the busy flag is raised while a worker runs
speech recognition (SenseVoice), a language model and text-to-speech. When the
worker finishes it deletes its temporary files and lowers the flag again.

This project models the three variants of that front end:

- **`voice_assistant.py`** (module `VoiceAssistant`) segments by volume. A
  chunk is loud when its mean absolute amplitude exceeds 500. An utterance
  runs from the first loud chunk until more than 1.0 s has passed since the
  last loud one. Utterances shorter than 0.5 s are dropped. The listener uses
  the corrected volume of the first Findings row, which differs from the
  source only on chunks holding the sample -32768.
- **`experiments/audio_only.py`** (module `AudioOnly`) collects five reads,
  cuts them into 20 ms windows, and asks a voice activity detector (VAD)
  about each window. It keeps the group when more than 60 % of the windows are
  speech, and saves once 0.8 s pass without a kept group.
- **`experiments/realtime_sensevoice.py`** (module `RealtimeSenseVoice`)
  chooses a sample rate the device accepts. It records from the first chunk
  whose RMS exceeds the threshold. It stops at the first 0.5 s queue timeout
  that comes more than the silence timeout after the last loud chunk, or on a
  stop request or Ctrl-C. Then it writes and transcribes one file.

Module `SpeechCommon` holds what they share:

- the sample and byte types;
- the outcome of a foreign call;
- Python's decimal `str(n)` and `str.strip()`;
- the tag-removing regular expression substitution of `clean_asr_text`, as a
  recursive function. A tag runs from an open marker `<|` to the first close
  marker `|>` after it. Like the regex, the function does not let `.` match a
  newline, and the lazy `.*?` ends at the first close marker.

How the model is shaped:

- **State.** Each assistant is a class with the source's fields. Its methods
  are proved against a pure step function on a `Listener` value (`AfterChunk`,
  `AfterRead`, `AfterSave`, `AfterInference`). The properties are lemmas about
  those functions, and about `Run`, which feeds a whole sequence of chunks to
  the step function.
- **Files.** The output directory is a map from file names to contents, for
  the files this process created that still exist. File names are a datatype,
  and `PathOf` renders them. It is proved injective, so two files never share
  a path.
- **Oracles.** The clock, the microphone, the VAD, the recogniser, the language
  model, text-to-speech and the device's sample-rate check are parameters:
  - a time `now: real`;
  - the data read;
  - `Stage<T>`, which either raised or returned a value;
  - `Synthesis`;
  - a predicate for the rate check.
- **Arithmetic.** Every float comparison in the source is restated as an exact
  integer or real comparison, with a lemma tying the two together:
  - `Σ|x| > 500·n` for the volume;
  - `5·speech > 3·total` for the VAD ratio;
  - `Σx² > T²·n` for the RMS.

## Model

| member | source | states |
|---|---|---|
| SpeechCommon.NatToString | voice_assistant.py:114 | the decimal rendering of a counter is non-empty, all digits, and starts with `0` only for 0 |
| SpeechCommon.ParseNatToString | voice_assistant.py:114 | reading the decimal rendering back gives the counter: `ParseDecimal(NatToString(n)) == n` |
| SpeechCommon.NatToStringInjective | voice_assistant.py:113-114 | different counters render differently |
| SpeechCommon.CounterNameInjective | voice_assistant.py:113-114 | two file names built from the same prefix and suffix are equal only for equal counters |
| SpeechCommon.LeadingSpaces | voice_assistant.py:127 | the count of leading whitespace: all of the prefix is whitespace and the next character is not |
| SpeechCommon.TrailingSpaces | voice_assistant.py:127 | the count of trailing whitespace: all of the suffix is whitespace and the character before it is not |
| SpeechCommon.Strip | voice_assistant.py:127 | `strip()` returns the contiguous middle of the text with only whitespace around it; it neither starts nor ends with whitespace; it is empty iff the text is all whitespace |
| SpeechCommon.StripUnspaced | voice_assistant.py:127 | text that neither starts nor ends with whitespace is unchanged by `strip()` |
| SpeechCommon.CloseFrom | voice_assistant.py:126 | the lazy `.*?` ends at the first close marker that no newline precedes; with none, no match exists from that start |
| SpeechCommon.TagAt | voice_assistant.py:126 | a tag matches at the start exactly when the text opens with the open marker and a close marker follows with no newline before it; the match then ends at the first such close marker |
| SpeechCommon.StripTags | voice_assistant.py:126 | removing tags never lengthens the text and introduces no character |
| SpeechCommon.CleanAsrText | voice_assistant.py:125-127 | the cleaned text is no longer than the input and neither starts nor ends with whitespace |
| SpeechCommon.StripTagsNoTag | voice_assistant.py:126 | text without the open marker passes the substitution unchanged |
| SpeechCommon.StripTagsLeadingTag | voice_assistant.py:126 | a leading tag (no newline and no close marker inside) is removed and the rest is processed on |
| SpeechCommon.StripTagsKeepsFirst | voice_assistant.py:126 | a first character that does not open a tag is kept and the scan resumes after it |
| SpeechCommon.StripTagsNoLateClose | voice_assistant.py:126 | text with no close marker from index 2 on passes the substitution unchanged, whatever open markers it holds, since a tag can end only at a close marker after its own open marker |
| SpeechCommon.StripTagsUnclosed | voice_assistant.py:126 | an open marker that no close marker follows is not a tag: it and the rest are kept unchanged, including later open markers |
| SpeechCommon.UnclosedTagKept | voice_assistant.py:126 | the text of an open marker followed by `ab` passes the substitution unchanged |
| SpeechCommon.OverlappingCloseKept | voice_assistant.py:126 | an open marker followed by `>x` passes unchanged: the close marker that shares its bar with the open marker closes nothing |
| SpeechCommon.StripTagsInnerTag | voice_assistant.py:126 | in `<` + tag + tail, only the inner tag is removed and the outer `<` stays |
| SpeechCommon.CleanAsrTextNotIdempotent | voice_assistant.py:125-127 | cleaning is not idempotent: the text `<` + tag(x) + `b` + close marker cleans to tag(b), which cleans to the empty text |
| SpeechCommon.CleanAsrTextNestedOnce | voice_assistant.py:125-127 | the text `<` + tag(x) + `b` + close marker cleans to tag(b) |
| SpeechCommon.CleanAsrTextOuterTail | voice_assistant.py:125-127 | tag(b) cleans to the empty text |
| VoiceAssistant.NumpyAbs | voice_assistant.py:101 | numpy's int16 `abs` is the absolute value for every sample except -32768, which it maps to -32768 |
| VoiceAssistant.LoudIffVolumeAbove | voice_assistant.py:96-101 | `calculate_volume(c) > MIN_VOLUME` iff the chunk is non-empty and `Σ abs(x) > 500·n` |
| VoiceAssistant.DivAbove | voice_assistant.py:232 | a mean is above a threshold iff the total exceeds the threshold times the count |
| VoiceAssistant.AbsSumAsWrittenAgrees | voice_assistant.py:101 | without the sample -32768, the int16 absolute sum equals the true absolute sum |
| VoiceAssistant.AbsSumAsWrittenOfMinimum | voice_assistant.py:98-101 | for samples all -32768, the int16 absolute sum is negative (`-32768·n`), while the true one is `32768·n` |
| VoiceAssistant.ClippedChunkReadsSilent | voice_assistant.py:96-101 | a chunk clipped at -32768 has volume -32768 as written, so it reads as quiet; its true volume is 32768, which is loud |
| VoiceAssistant.PathOfInjective | voice_assistant.py:114 | distinct files (`audio_<n>.wav`, `temp_tts_<n>.mp3`) have distinct paths, in both directions |
| VoiceAssistant.PathOfKindsDiffer | voice_assistant.py:114 | an audio file and a speech file never share a path |
| VoiceAssistant.TooShortIff | voice_assistant.py:107-108 | the 0.5 s filter drops exactly the utterances of at most 5 chunks |
| VoiceAssistant.AfterSaveCases | voice_assistant.py:103-123 | `save_audio`: with no frames it does nothing. With at most 5 frames, it clears them, keeps the counter and returns None. Otherwise it bumps the counter by one, writes `audio_<n>.wav` holding every frame, clears the frames and returns that file |
| VoiceAssistant.LoudChunkNeverCloses | voice_assistant.py:241-246 | a loud chunk refreshes the timer it is tested against, so it never ends an utterance |
| VoiceAssistant.AfterChunkCases | voice_assistant.py:214-253 | one listener iteration, with loudness by the corrected volume (Findings row 1), case by case: while busy, nothing changes; while waiting, a quiet chunk is ignored; a loud one starts recording with `frames == [data]` and `now`, and no end test is made on it; while recording, every chunk is appended and only a loud one refreshes the timer; the utterance closes strictly after 1.0 s, with the closing chunk included; the flag is raised exactly when a file is dispatched, and a too-short utterance only resets `recording` |
| VoiceAssistant.InitialConsistent | voice_assistant.py:43-50 | the constructed listener satisfies the invariant: frames only while recording, and none while busy; an audio file exists exactly while busy, under the current counter; no speech file exists |
| VoiceAssistant.AfterChunkConsistent | voice_assistant.py:214-253 | every listener iteration preserves that invariant |
| VoiceAssistant.RunStep | voice_assistant.py:214-259 | a run over chunks is one iteration followed by the run over the rest |
| VoiceAssistant.RunConsistent | voice_assistant.py:214-259 | the invariant holds after any sequence of chunks |
| VoiceAssistant.BusyIgnoresChunks | voice_assistant.py:219-221 | while busy, any sequence of chunks changes nothing and dispatches nothing |
| VoiceAssistant.AtMostOneDispatch | voice_assistant.py:248-251 | between two inference hand-offs at most one file is dispatched, and after one the listener is busy |
| VoiceAssistant.QuietKeepsWaiting | voice_assistant.py:230-236 | while waiting, quiet chunks leave every field unchanged |
| VoiceAssistant.Datas | voice_assistant.py:239 | the data of a chunk sequence, index by index |
| VoiceAssistant.FramesCons | voice_assistant.py:239 | appending one chunk and then the rest is appending them all |
| VoiceAssistant.LastTimeCons | voice_assistant.py:243 | the time of the last chunk of a sequence, split at its head |
| VoiceAssistant.RunQuietStep | voice_assistant.py:214-253 | an iteration that dispatches nothing just hands its state to the next |
| VoiceAssistant.LoudWhileWaiting | voice_assistant.py:230-236 | a loud chunk while waiting starts an utterance of exactly that chunk |
| VoiceAssistant.LoudWhileRecording | voice_assistant.py:238-243 | a loud chunk while recording is appended and refreshes the timer |
| VoiceAssistant.QuietWhileRecording | voice_assistant.py:238-246 | a quiet chunk within the timeout is appended and leaves the timer |
| VoiceAssistant.RunAppend | voice_assistant.py:214-259 | running `a + b` is running `a` and then `b`, with the dispatches concatenated |
| VoiceAssistant.RunThen | voice_assistant.py:214-259 | after a prefix that dispatches nothing, the run continues from its state |
| VoiceAssistant.RecordLoud | voice_assistant.py:238-243 | loud chunks while recording are all appended, and the timer ends at the last one |
| VoiceAssistant.RecordQuiet | voice_assistant.py:238-246 | quiet chunks within the timeout are all appended and the timer stays |
| VoiceAssistant.StartUtterance | voice_assistant.py:230-243 | from waiting, a run of loud chunks is recorded whole |
| VoiceAssistant.EndUtterance | voice_assistant.py:246-253 | the closing quiet chunk drops an utterance of at most 5 chunks; a longer one is saved as the next file and goes busy |
| VoiceAssistant.UtteranceUpToLast | voice_assistant.py:230-246 | loud chunks and then quiet ones within the timeout are all recorded, up to the closing chunk |
| VoiceAssistant.UtteranceDropped | voice_assistant.py:103-111 | an utterance of at most 5 chunks closed by silence is dropped without a file and without going busy |
| VoiceAssistant.UtteranceSaved | voice_assistant.py:103-123 | a longer one is saved whole, closing chunk included, as the next audio file, and the listener goes busy |
| VoiceAssistant.DatasOfUtterance | voice_assistant.py:239 | the recorded frames plus the closing chunk are the utterance's data in order |
| VoiceAssistant.AbsSumConstant | voice_assistant.py:101 | a chunk of one repeated sample has absolute sum `n·abs(v)` |
| VoiceAssistant.Scenario | voice_assistant.py:27 | the example stream has the requested number of chunks, 4096 samples apart |
| VoiceAssistant.ConstantLoudness | voice_assistant.py:32 | a chunk of amplitude 1000 is loud and a silent chunk is not |
| VoiceAssistant.ScenarioLoudness | voice_assistant.py:32 | in the example stream the first chunks are loud and the rest quiet |
| VoiceAssistant.ScenarioTiming | voice_assistant.py:36 | 11 quiet chunks stay within 1.0 s of the last loud one (0.939 s), and the 12th is past it (1.024 s) |
| VoiceAssistant.ScenarioFacts | voice_assistant.py:36 | the example stream meets the premises of an utterance closed at its 12th quiet chunk |
| VoiceAssistant.BusyAfter | voice_assistant.py:219-221 | once a run leaves the listener busy, further chunks change nothing |
| VoiceAssistant.ScenarioRun | voice_assistant.py:214-253 | from the constructed listener, k loud chunks and 12 quiet ones give exactly one file, holding all of them, and a busy listener |
| VoiceAssistant.ScenarioUtterance | voice_assistant.py:214-253 | the same, stated as the dispatched list, the busy flag and the files |
| VoiceAssistant.EightLoudThenSilence | voice_assistant.py:214-253 | 8 loud chunks and then 15 silent ones dispatch `audio_1.wav` holding the first 20 chunks; the last 3 arrive while busy and are ignored |
| VoiceAssistant.OneLoudChunkIsStillSaved | voice_assistant.py:107-108 | a single loud chunk is saved: with the 11 quiet chunks and the closing chunk the utterance is 13 chunks (about 1.109 s) long, the closing chunk coming 1.024 s after the loud one |
| VoiceAssistant.StalledShortUtteranceDropped | voice_assistant.py:246-253 | a loud chunk followed 2 s later by a quiet one is dropped as too short, and the listener is back to waiting |
| VoiceAssistant.OutcomeCases | voice_assistant.py:139-167 | the inference exit, with its conditions in both directions: recognition raised; text that is empty or one of 嗯 。 ？ after cleaning is skipped without the LLM or TTS; the LLM raised; a reply, which is spoken exactly when it is non-empty and synthesis and playback succeed |
| VoiceAssistant.InferenceCleansUp | voice_assistant.py:129-179 | after `process_inference`, busy is always cleared. An invalid path changes nothing else. Every other exit (skip, exception or success) removes the audio file and any speech file, clears `recording`, and keeps the other files and fields |
| VoiceAssistant.InferenceRestoresConsistency | voice_assistant.py:129-179 | inference on the dispatched file leaves a consistent, idle listener with an empty output directory |
| VoiceAssistant.Assistant.constructor | voice_assistant.py:43-50 | the fields start idle, with no frames, the counter at 0 and no files |
| VoiceAssistant.Assistant.SaveAudio | voice_assistant.py:103-123 | `save_audio` on the fields is `AfterSave` |
| VoiceAssistant.Assistant.ListenerIteration | voice_assistant.py:215-253 | one loop iteration on the fields is `AfterChunk`, with loudness by the corrected volume (Findings row 1) |
| VoiceAssistant.Assistant.TextToSpeechAndPlay | voice_assistant.py:181-197 | the speech file never survives the call; nothing else changes; it is played iff synthesis and playback succeed |
| VoiceAssistant.Assistant.ReplyAndSpeak | voice_assistant.py:155-167 | the LLM step and the TTS step give `Reply`; only the speech file is removed |
| VoiceAssistant.Assistant.Pipeline | voice_assistant.py:139-167 | the try-block gives `Outcome`; only the speech file is removed |
| VoiceAssistant.Assistant.ProcessInference | voice_assistant.py:129-179 | `process_inference` on the fields is `AfterInference` |
| AudioOnly.ConcatSingle | experiments/audio_only.py:253 | joining one read gives the read |
| AudioOnly.ConcatLength | experiments/audio_only.py:253 | joining reads of one size gives count times size bytes |
| AudioOnly.Windows | experiments/audio_only.py:89-96 | the full windows: `len // 1920` of them, each 1920 bytes |
| AudioOnly.WindowsTile | experiments/audio_only.py:93-96 | the full windows tile the buffer's prefix in order, and less than one window is left over |
| AudioOnly.WindowsTilePrefix | experiments/audio_only.py:93-96 | the first t windows tile the first `1920·t` bytes |
| AudioOnly.TrailingPartialIgnored | experiments/audio_only.py:95 | a trailing partial window changes no window |
| AudioOnly.SpeechCountCases | experiments/audio_only.py:93-98 | the count exists iff the VAD answered every window; it is at most the number of windows; it is all of them or none when the VAD always says yes or always no |
| AudioOnly.SpeechCountRaisedStays | experiments/audio_only.py:101-102 | once the VAD has raised, the whole check has raised |
| AudioOnly.VadVerdictIff | experiments/audio_only.py:99-102 | speech iff the VAD answered every window, there is at least one full window, and `5·speech > 3·total`; an exception gives False |
| AudioOnly.RatioAbove | experiments/audio_only.py:100 | `speech / total > 0.6` iff `5·speech > 3·total` |
| AudioOnly.GroupVerdict | experiments/audio_only.py:252-254 | a group of five 4096-byte reads has 10 full windows and 1280 bytes left over, and is speech iff at least 7 windows are speech |
| AudioOnly.QuietBufferIsNotSpeech | experiments/audio_only.py:97-100 | with no window judged speech, the buffer is not speech |
| AudioOnly.SpeechBufferIsSpeech | experiments/audio_only.py:97-100 | with at least one window, all judged speech, the buffer is speech |
| AudioOnly.CheckVadActivity | experiments/audio_only.py:87-102 | the loop over window offsets returns `VadVerdict` |
| AudioOnly.PathOfInjective | experiments/audio_only.py:116 | distinct files (`temp_audio_<n>.wav`, `temp_tts_<n>.mp3`) have distinct paths, in both directions |
| AudioOnly.PathOfKindsDiffer | experiments/audio_only.py:116 | an audio file and a speech file never share a path |
| AudioOnly.Audios | experiments/audio_only.py:118 | the audio of the kept segments, in order |
| AudioOnly.TooShortIff | experiments/audio_only.py:108-110 | the 0.6 s filter, which counts one CHUNK per kept group, drops exactly at most 14 groups |
| AudioOnly.AfterSaveCases | experiments/audio_only.py:104-127 | `save_audio_segment`: with nothing kept it does nothing. With at most 14 groups, it clears them and keeps the counter. Otherwise it bumps the counter by one, writes `temp_audio_<n>.wav` with every kept group in order, and clears them |
| AudioOnly.SavedFileLength | experiments/audio_only.py:108-124 | a saved file holds at least 15 groups of five full reads (3.2 s of audio) |
| AudioOnly.AfterBufferCases | experiments/audio_only.py:250-260 | under five reads, a read is only buffered. At five, the buffer is emptied; a speech group is kept with its time and refreshes the activity time, and a non-speech group changes nothing else |
| AudioOnly.AfterReadCases | experiments/audio_only.py:241-271 | one iteration, case by case: while busy, only the buffer is emptied; a save attempt resets the activity time and drops the kept groups whether or not a file results; a file results iff at least 15 groups were kept; the flag is raised exactly with a dispatched file |
| AudioOnly.InitialConsistent | experiments/audio_only.py:41-50 | the constructed listener satisfies the invariant: fewer than five buffered reads; nothing kept while busy; an audio file exists exactly while busy; no speech file exists |
| AudioOnly.AfterReadConsistent | experiments/audio_only.py:241-271 | every iteration preserves that invariant |
| AudioOnly.RunConsistent | experiments/audio_only.py:238-277 | the invariant holds after any sequence of reads |
| AudioOnly.BusyDrainsReads | experiments/audio_only.py:244-247 | while busy, reads only empty the buffer; the kept groups, activity time, counter and files are untouched |
| AudioOnly.AtMostOneDispatch | experiments/audio_only.py:264-269 | at most one file is dispatched per hand-off, and after one the listener is busy |
| AudioOnly.AfterReadWellSized | experiments/audio_only.py:250-258 | with full reads, buffered reads stay 4096 bytes and kept groups 20480 bytes |
| AudioOnly.RunWellSized | experiments/audio_only.py:238-277 | the same holds over any sequence of full reads |
| AudioOnly.IgnoredTextIff | experiments/audio_only.py:151-157 | the skip filter accepts exactly "" and the five one-character words 嗯 啊 哦 。 ？ |
| AudioOnly.OutcomeCases | experiments/audio_only.py:145-184 | the inference exit, with its conditions in both directions; skipped text is at most one character |
| AudioOnly.InferenceCleansUp | experiments/audio_only.py:133-197 | after `process_inference`, busy is always cleared. An invalid path changes nothing else. Every other exit removes the audio file and any speech file and keeps the other files and fields |
| AudioOnly.InferenceRestoresConsistency | experiments/audio_only.py:133-197 | inference on the dispatched file leaves a consistent, idle listener with an empty output directory |
| AudioOnly.Assistant.constructor | experiments/audio_only.py:41-50 | the fields start idle and empty, with the counter at 0 and the activity time at the clock |
| AudioOnly.Assistant.SaveAudioSegment | experiments/audio_only.py:104-127 | `save_audio_segment` on the fields is `AfterSave` |
| AudioOnly.Assistant.ListenerIteration | experiments/audio_only.py:239-271 | one loop iteration on the fields is `AfterRead` |
| AudioOnly.Assistant.TextToSpeechAndPlay | experiments/audio_only.py:199-216 | the speech file never survives the call; nothing else changes; it is played iff synthesis and playback succeed |
| AudioOnly.Assistant.ReplyAndSpeak | experiments/audio_only.py:170-184 | the LLM step and the TTS step give `Reply`; only the speech file is removed |
| AudioOnly.Assistant.Pipeline | experiments/audio_only.py:145-184 | the try-block, with its two filter returns, gives `Outcome`; only the speech file is removed |
| AudioOnly.Assistant.ProcessInference | experiments/audio_only.py:133-197 | `process_inference` on the fields is `AfterInference` |
| RealtimeSenseVoice.FirstPassingCases | experiments/realtime_sensevoice.py:49-56 | the candidate loop returns an accepted rate with every earlier candidate rejected, and returns nothing iff every candidate is rejected |
| RealtimeSenseVoice.ChosenRateCases | experiments/realtime_sensevoice.py:25-56 | the rate choice: an accepted requested rate is returned unchanged; otherwise, an accepted positive device default is returned as `int(default)`; otherwise, the first accepted candidate in the order 16000, 22050, 32000, 44100, 48000 is returned; the RuntimeError happens iff nothing is accepted; any rate returned has passed the device check |
| RealtimeSenseVoice.SixteenKilohertzSuffices | experiments/realtime_sensevoice.py:49-56 | a device accepting 16000 always yields a rate |
| RealtimeSenseVoice.ChooseSamplerate | experiments/realtime_sensevoice.py:25-56 | the method, with its loop over the candidates, returns `ChosenRate` |
| RealtimeSenseVoice.LoudIffMeanSquareAbove | experiments/realtime_sensevoice.py:138-143 | for a threshold ≥ 0, the cross-multiplied test `Σx² > T²·n` is `mean(x²) > T²`, that is `rms > T` |
| RealtimeSenseVoice.SilenceIsQuiet | experiments/realtime_sensevoice.py:138-143 | a silent chunk never starts or refreshes a recording |
| RealtimeSenseVoice.SilenceSumsToZero | experiments/realtime_sensevoice.py:138 | a silent chunk has zero energy |
| RealtimeSenseVoice.StepCases | experiments/realtime_sensevoice.py:123-153 | one loop pass, case by case: a break changes no variable; Ctrl-C breaks; the stop request is checked first; any other queue timeout before the silence end changes nothing and the loop continues; a silence end happens iff a queue timeout arrives while recording, strictly more than `silence_timeout` after the last loud chunk; before speech, a quiet chunk is dropped and a loud one starts the buffer with that chunk and its time; while recording, every chunk is appended and only a loud one refreshes the time |
| RealtimeSenseVoice.ListenCoherent | experiments/realtime_sensevoice.py:117-151 | recording and a last-speech time go together, and the buffer is empty until recording starts |
| RealtimeSenseVoice.SilenceEndNeedsTimeout | experiments/realtime_sensevoice.py:124-135 | a session ends by silence only on an empty queue without a stop request, so a continuous stream of chunks never ends it |
| RealtimeSenseVoice.QuietBeforeSpeech | experiments/realtime_sensevoice.py:142-147 | before speech, chunks at or below the threshold change nothing |
| RealtimeSenseVoice.RecordingAppendsAll | experiments/realtime_sensevoice.py:148-151 | while recording, every chunk is appended in order and the loop never breaks on chunks |
| RealtimeSenseVoice.BufferStartsAtFirstLoud | experiments/realtime_sensevoice.py:142-151 | from the start, after quiet chunks, a loud chunk and more chunks, the buffer is exactly the loud chunk and everything after it |
| RealtimeSenseVoice.ListenAppend | experiments/realtime_sensevoice.py:123-151 | a loop that has not broken on one stretch of events goes on with the next from where it was |
| RealtimeSenseVoice.ListenLoop | experiments/realtime_sensevoice.py:117-154 | the imperative loop leaves the variables and the break reason that `Listen` gives; no reason means it is still waiting in `q.get` |
| RealtimeSenseVoice.SessionCases | experiments/realtime_sensevoice.py:69-177 | `record_session`: exit code 1, with nothing written, when no rate is accepted, or when the loop broke with no speech captured; while no event has broken the `while True` loop the session is still listening and has written nothing; otherwise the captured buffer is written at the rate the device accepted and recorded at (corrected; the source writes the `samplerate` argument, see Findings); exit code 0 after a transcription; a raising recogniser escapes |
| RealtimeSenseVoice.HeaderRateMismatch | experiments/realtime_sensevoice.py:163 | as written, asking for 16000 from a device that accepts only its default 44100 records at 44100; after one loud chunk and a stop request the session exits 0 with a file whose header claims 16000, where the corrected session writes 44100 |
| RealtimeSenseVoice.RecordSession | experiments/realtime_sensevoice.py:59-177 | the method returns `SessionOutcome`, with the header rate corrected as under Findings |

The 0.5 s filter of `voice_assistant.py` never drops an utterance that
silence closed at the stream's own pace. One chunk is 85.3 ms, so the chunk
that closes an utterance comes at least 12 chunks after the last loud one.
Every such utterance is therefore at least 13 chunks (about 1.109 s) long
(`OneLoudChunkIsStillSaved`). Only a stalled stream, with a gap in the clock,
produces a short one (`StalledShortUtteranceDropped`).

For the same reason, "8 loud chunks followed by 15 silent ones" does not save
23 chunks. It saves 20: the 12th silent chunk closes the utterance, and the
last three arrive while the listener is busy (`EightLoudThenSilence`). The
model follows the code here.

## Left out

- VoiceAssistant.Assistant.ListenerIteration / AfterChunk: loudness uses the
  corrected volume of Findings row 1. So a chunk holding -32768 (for example
  `[32767, -32768]`, or a fully clipped chunk) can start or extend an
  utterance here and not in the source. `ClippedChunkReadsSilent` states the
  as-written behaviour on such a chunk.
- Audio devices, streams, `wave`/`soundfile` writing, pygame playback, and the
  console output. A file's contents are its format parameters and its chunks.
- The recogniser, the language models, edge-tts, webrtcvad and
  `rich_transcription_postprocess` are foreign code. Their results, or the
  fact that they raised, are parameters.
- Threads. The worker thread is a sequential call to `ProcessInference` after
  a dispatch. The busy flag is a plain field, as in the source, with no atomic
  gate. The warm-up thread and the Enter-key thread of
  `realtime_sensevoice.py` are left out; the latter appears only as the
  `stopSet` field of a queue timeout. `ListenerIteration` is one iteration of
  the `while self.running` loop. The loop's `IOError` retry and
  exception-break, `start`, `_load_models`, `exit(1)` and argparse are not part
  of this model.
- `os.remove` is assumed to succeed. The source swallows its failures, after
  which the file would stay.
- VoiceAssistant.Assistant.ListenerIteration: one clock reading `now` per
  iteration. The source calls `time.time()` separately for the refresh and for
  the end test, microseconds apart.
- AudioOnly.Assistant.ListenerIteration: one clock reading per iteration,
  for the same reason. The loop-local `audio_buffer` is a field of the class,
  so that one iteration can be a method.
- AudioOnly.VadVerdictIff: the VAD is a function of the window alone. The
  webrtcvad object may keep state between `is_speech` calls, so the same
  window can get different answers there; this model does not capture that.
- AudioOnly.VadVerdictIff: the float division `num_speech / total_windows` is
  modelled as exact; the two agree for any realistic window count.
- RealtimeSenseVoice.LoudIffMeanSquareAbove: the float32 rounding of
  `chunk.astype(float32) ** 2` and of the mean is not modelled. The test is
  made on exact sums of squares, with the threshold as a real.
- RealtimeSenseVoice.ChosenRateCases: `requested` in `record_session` is always
  the `samplerate` argument. Its conversion with `int(...)` is the identity
  for the integers the command line yields.
- RealtimeSenseVoice.RecordSession: the transcription text is only printed,
  so it is not part of the result. The temporary file is written and then
  removed in `finally`; its contents appear as the result's `written`, and it
  is not tracked in an output directory. An exception from opening the input
  stream is not modelled.
- `TTS.py`, `gguf_infer_2.py`, `test.py`, `realtime_stt.py` and the numbered
  experiment scripts are demos around model libraries. They are not part of
  this model.

## Findings

| source | as written | input that shows it | evidently intended | confidence | as-written member | corrected member |
|---|---|---|---|---|---|---|
| voice_assistant.py:101 | `np.abs` on int16 maps -32768 to -32768, so the mean absolute amplitude can be negative | a chunk of 4096 samples all -32768 (a clipped microphone) has volume -32768 ≤ 500, so it never starts or extends an utterance | the absolute value taken in a wider type: the volume of that chunk is 32768, which is loud | not executed | VoiceAssistant.ClippedChunkReadsSilent | VoiceAssistant.LoudIffVolumeAbove |
| experiments/realtime_sensevoice.py:163 | the wave file is written with the `samplerate` argument, while the stream was opened at `used_samplerate` | `samplerate` 16000 rejected by the device, device default 44100.0 accepted, one loud chunk, then Enter pressed: the audio is recorded at 44100 but the header says 16000 | the file written at `used_samplerate`, the rate the samples were recorded at | not executed | RealtimeSenseVoice.HeaderRateMismatch | RealtimeSenseVoice.SessionCases |
