/**
 * Definitions shared by the three assistants: sample and byte types,
 * the outcome of a foreign call, the artifacts written to the output
 * directory, Python's decimal `str(n)`, `str.strip()` and the regular
 * expression substitution that `clean_asr_text` performs on recognised text.
 */
module SpeechCommon {

  /** One byte of a PCM buffer. */
  type byte = x: int | 0 <= x < 256

  /** One signed 16-bit PCM sample (numpy `int16`). */
  type Sample = x: int | -32768 <= x < 32768

  datatype Option<T> = None | Some(value: T)

  /** What a foreign call (ASR, LLM, ...) did: it raised, or it returned a value. */
  datatype Stage<T> = Raised | Returned(value: T)

  /**
   * What text-to-speech did: `edge_tts` raised (possibly after it had already
   * created the output file), or it saved the file and playback then raised
   * or completed.
   */
  datatype Synthesis = SynthesisRaised(leftFile: bool) | Synthesized(playbackRaised: bool)

  /**
   * A file in the output directory: a wave file written by `wave` (the
   * chunks whose concatenation `writeframes` received, in order), or
   * synthesized speech.
   */
  datatype Artifact<Chunk> =
    | Wav(channels: nat, sampleWidth: nat, rate: nat, chunks: seq<Chunk>)
    | Speech(text: string, voice: string)

  // ---------------------------------------------------------------------
  // Decimal rendering of a counter, as Python's f"{n}" does it
  // ---------------------------------------------------------------------

  predicate IsDigit(c: char) {
    '0' <= c <= '9'
  }

  function DigitChar(d: nat): (c: char)
    requires d < 10
    ensures IsDigit(c) && c as int - '0' as int == d
  {
    (d + '0' as int) as char
  }

  /** The decimal digits of `n`, most significant first, without leading zeros. */
  function NatToString(n: nat): (s: string)
    ensures 1 <= |s|
    ensures forall i :: 0 <= i < |s| ==> IsDigit(s[i])
    ensures s[0] == '0' ==> n == 0
    decreases n
  {
    if n < 10 then [DigitChar(n)] else NatToString(n / 10) + [DigitChar(n % 10)]
  }

  /** The value of a string of decimal digits. */
  function ParseDecimal(s: string): nat
    requires forall i :: 0 <= i < |s| ==> IsDigit(s[i])
  {
    if s == [] then 0
    else
      assert IsDigit(s[|s| - 1]);
      ParseDecimal(s[..|s| - 1]) * 10 + (s[|s| - 1] as int - '0' as int)
  }

  /** Reading back the rendered counter gives the counter. */
  lemma {:induction false} ParseNatToString(n: nat)
    ensures ParseDecimal(NatToString(n)) == n
    decreases n
  {
    var s := NatToString(n);
    if n >= 10 {
      ParseNatToString(n / 10);
      assert s[..|s| - 1] == NatToString(n / 10);
    }
  }

  /** Distinct counters give distinct names. */
  lemma NatToStringInjective(a: nat, b: nat)
    requires NatToString(a) == NatToString(b)
    ensures a == b
  {
    ParseNatToString(a);
    ParseNatToString(b);
  }

  /**
   * `prefix + str(n) + suffix` names different files for different counters.
   */
  lemma CounterNameInjective(prefix: string, suffix: string, a: nat, b: nat)
    requires prefix + NatToString(a) + suffix == prefix + NatToString(b) + suffix
    ensures a == b
  {
    var x, y := prefix + NatToString(a) + suffix, prefix + NatToString(b) + suffix;
    assert NatToString(a) == x[|prefix|..|x| - |suffix|];
    assert NatToString(b) == y[|prefix|..|y| - |suffix|];
    NatToStringInjective(a, b);
  }

  // ---------------------------------------------------------------------
  // Python's str.strip() with no argument
  // ---------------------------------------------------------------------

  /** The characters for which Python's `str.isspace()` holds. */
  predicate IsSpace(c: char) {
    ('\U{0009}' <= c <= '\U{000D}') || ('\U{001C}' <= c <= '\U{0020}')
    || c == '\U{0085}' || c == '\U{00A0}' || c == '\U{1680}'
    || ('\U{2000}' <= c <= '\U{200A}') || c == '\U{2028}' || c == '\U{2029}'
    || c == '\U{202F}' || c == '\U{205F}' || c == '\U{3000}'
  }

  predicate AllSpace(s: string) {
    forall k :: 0 <= k < |s| ==> IsSpace(s[k])
  }

  /** Number of whitespace characters at the start of `s`. */
  function LeadingSpaces(s: string): (k: nat)
    ensures k <= |s| && AllSpace(s[..k])
    ensures k < |s| ==> !IsSpace(s[k])
  {
    if s != [] && IsSpace(s[0]) then
      var k := 1 + LeadingSpaces(s[1..]);
      assert forall i :: 1 <= i < k ==> s[..k][i] == s[1..][..k - 1][i - 1];
      k
    else 0
  }

  /** Number of whitespace characters at the end of `s`. */
  function TrailingSpaces(s: string): (k: nat)
    ensures k <= |s| && AllSpace(s[|s| - k..])
    ensures k < |s| ==> !IsSpace(s[|s| - k - 1])
  {
    if s != [] && IsSpace(s[|s| - 1]) then
      var t := s[..|s| - 1];
      var k := 1 + TrailingSpaces(t);
      SpaceSuffixGrows(s, k - 1);
      k
    else 0
  }

  /** A whitespace suffix of all but the last character grows by a last whitespace character. */
  lemma SpaceSuffixGrows(s: string, j: nat)
    requires j < |s| && AllSpace(s[..|s| - 1][|s| - 1 - j..]) && IsSpace(s[|s| - 1])
    ensures AllSpace(s[|s| - 1 - j..])
  {
    var v := s[..|s| - 1][|s| - 1 - j..];
    assert s[|s| - 1 - j..] == v + [s[|s| - 1]];
  }

  /**
   * `s.strip()`: the slice of `s` that is left once the whitespace at both
   * ends is removed; it neither starts nor ends with whitespace.
   */
  function Strip(s: string): (r: string)
    ensures LeadingSpaces(s) + |r| <= |s|
    ensures r == s[LeadingSpaces(s)..LeadingSpaces(s) + |r|]
    ensures AllSpace(s[LeadingSpaces(s) + |r|..])
    ensures r == [] || (!IsSpace(r[0]) && !IsSpace(r[|r| - 1]))
    ensures r == [] <==> AllSpace(s)
  {
    var i := LeadingSpaces(s);
    if i == |s| then
      assert s[..i] == s;
      []
    else
      var t := s[i..];
      var k := TrailingSpaces(t);
      assert t[0] == s[i];
      var r := s[i..|s| - k];
      assert s[|s| - k..] == t[|t| - k..];
      assert r[|r| - 1] == t[|t| - k - 1];
      r
  }

  // ---------------------------------------------------------------------
  // re.sub(r'<\|.*?\|>', '', text)
  // ---------------------------------------------------------------------

  predicate NoNewline(s: string) {
    forall k :: 0 <= k < |s| ==> s[k] != '\n'
  }

  /** A "|>" starts at index k of s. */
  predicate CloseAt(s: string, k: int) {
    0 <= k && k + 2 <= |s| && s[k] == '|' && s[k + 1] == '>'
  }

  /**
   * With `<|` matched at the start of `s` and the lazy `.*?` having consumed
   * `s[2..j]`, the end of the match: the first `|>` at or after `j`, provided
   * no newline (which `.` does not match) comes before it.
   */
  function CloseFrom(s: string, j: nat): (e: Option<nat>)
    requires 2 <= j <= |s|
    requires NoNewline(s[2..j])
    ensures e.Some? ==> j + 2 <= e.value <= |s| && CloseAt(s, e.value - 2)
    ensures e.Some? ==> NoNewline(s[2..e.value - 2])
    ensures e.Some? ==> forall k :: j <= k < e.value - 2 ==> !CloseAt(s, k)
    ensures e.None? ==> forall k :: j <= k <= |s| - 2 && NoNewline(s[2..k]) ==> !CloseAt(s, k)
    decreases |s| - j
  {
    if j + 2 > |s| then None
    else if s[j] == '|' && s[j + 1] == '>' then Some(j + 2)
    else if s[j] == '\n' then
      assert forall k :: j < k <= |s| ==> s[2..k][j - 2] == '\n';
      None
    else
      assert s[2..j + 1] == s[2..j] + [s[j]];
      CloseFrom(s, j + 1)
  }

  /**
   * Length of the tag `<|...|>` that the pattern matches at the start of `s`,
   * if any: `s` opens with `<|`, and the match ends at the first `|>` after
   * it, with no newline in between; with no such `|>` there is no match.
   */
  function TagAt(s: string): (e: Option<nat>)
    ensures e.Some? ==> 4 <= e.value <= |s| && s[0] == '<' && s[1] == '|'
    ensures e.Some? ==> CloseAt(s, e.value - 2) && NoNewline(s[2..e.value - 2])
    ensures e.Some? ==> forall k :: 2 <= k < e.value - 2 ==> !CloseAt(s, k)
    ensures e.None? ==>
      !(2 <= |s| && s[0] == '<' && s[1] == '|')
      || forall k :: 2 <= k <= |s| - 2 && NoNewline(s[2..k]) ==> !CloseAt(s, k)
  {
    if 2 <= |s| && s[0] == '<' && s[1] == '|' then CloseFrom(s, 2) else None
  }

  /**
   * Left-to-right scan of `re.sub`: where a tag matches it is dropped and the
   * scan resumes after it; elsewhere one character is kept.
   */
  function StripTags(s: string): (r: string)
    ensures |r| <= |s|
    ensures forall c :: c in r ==> c in s
    decreases |s|
  {
    if s == [] then []
    else match TagAt(s)
      case Some(e) =>
        var r := StripTags(s[e..]);
        assert forall c :: c in s[e..] ==> c in s;
        r
      case None =>
        var r := [s[0]] + StripTags(s[1..]);
        assert forall c :: c in s[1..] ==> c in s;
        r
  }

  /** `clean_asr_text`: remove the `<|...|>` tags, then strip whitespace. */
  function CleanAsrText(text: string): (r: string)
    ensures |r| <= |text|
    ensures r == [] || (!IsSpace(r[0]) && !IsSpace(r[|r| - 1]))
  {
    Strip(StripTags(text))
  }

  /** "<|" occurs nowhere in s. */
  predicate NoTagOpen(s: string) {
    forall k :: 0 <= k < |s| - 1 ==> !(s[k] == '<' && s[k + 1] == '|')
  }

  /** Text without any "<|" passes the tag removal unchanged. */
  lemma {:induction false} StripTagsNoTag(s: string)
    requires NoTagOpen(s)
    ensures StripTags(s) == s
    decreases |s|
  {
    if s != [] {
      assert TagAt(s).None?;
      assert NoTagOpen(s[1..]) by {
        forall k | 0 <= k < |s[1..]| - 1 ensures !(s[1..][k] == '<' && s[1..][k + 1] == '|') {
          assert s[1..][k] == s[k + 1] && s[1..][k + 1] == s[k + 2];
        }
      }
      StripTagsNoTag(s[1..]);
    }
  }

  /**
   * A leading tag whose body holds no newline and no "|>" is removed whole,
   * and the scan goes on with what follows it.
   */
  lemma StripTagsLeadingTag(body: string, rest: string)
    requires NoNewline(body)
    requires forall k :: 0 <= k < |body| - 1 ==> !(body[k] == '|' && body[k + 1] == '>')
    ensures StripTags("<|" + body + "|>" + rest) == StripTags(rest)
  {
    var s := "<|" + body + "|>" + rest;
    var e := |body| + 4;
    assert s[2..e - 2] == body;
    assert CloseAt(s, e - 2);
    assert forall k :: 2 <= k < e - 2 ==> !CloseAt(s, k) by {
      forall k | 2 <= k < e - 2 ensures !CloseAt(s, k) {
        if k < e - 3 {
          assert s[k] == body[k - 2] && s[k + 1] == body[k - 1];
        } else {
          assert s[k + 1] == '|';
        }
      }
    }
    assert NoNewline(s[2..e - 2]);
    var c := CloseFrom(s, 2);
    assert c.Some?;
    assert c.value == e;
    assert TagAt(s) == Some(e);
    assert s[e..] == rest;
  }

  /** Where no tag starts, the scan keeps the first character. */
  lemma StripTagsKeepsFirst(s: string)
    requires 1 <= |s| && !(2 <= |s| && s[0] == '<' && s[1] == '|')
    ensures StripTags(s) == [s[0]] + StripTags(s[1..])
  {
    assert TagAt(s).None?;
  }

  /**
   * Text with no `|>` from index 2 on is kept whole: a tag would have to end
   * at such a `|>`, which can only come after its own `<|`.
   */
  lemma {:induction false} StripTagsNoLateClose(s: string)
    requires forall k :: 2 <= k ==> !CloseAt(s, k)
    ensures StripTags(s) == s
    decreases |s|
  {
    if s != [] {
      StripTagsUnmatched(s);
      var t := s[1..];
      forall k | 2 <= k ensures !CloseAt(t, k) {
        assert !CloseAt(s, k + 1);
      }
      StripTagsNoLateClose(t);
      assert [s[0]] + t == s;
    }
  }

  /** Where no tag matches, the scan keeps the first character. */
  lemma StripTagsUnmatched(s: string)
    requires s != [] && TagAt(s).None?
    ensures StripTags(s) == [s[0]] + StripTags(s[1..])
  {
  }

  /**
   * An open marker that no `|>` follows is not a tag: it and everything after
   * it are kept, as `re.sub` leaves text it cannot match.
   */
  lemma StripTagsUnclosed(body: string)
    requires forall k :: 0 <= k ==> !CloseAt(body, k)
    ensures StripTags("<|" + body) == "<|" + body
  {
    var s := "<|" + body;
    forall k | 2 <= k ensures !CloseAt(s, k) {
      if k + 2 <= |s| {
        assert !CloseAt(body, k - 2);
        assert s[k] == body[k - 2] && s[k + 1] == body[k - 1];
      }
    }
    StripTagsNoLateClose(s);
  }

  /** The unclosed marker in "<|ab" is kept whole. */
  lemma UnclosedTagKept()
    ensures StripTags("<|ab") == "<|ab"
  {
    StripTagsUnclosed("ab");
  }

  /** The `|>` that overlaps the open marker in "<|>x" closes nothing: the text is kept whole. */
  lemma OverlappingCloseKept()
    ensures StripTags("<|>x") == "<|>x"
  {
    StripTagsNoLateClose("<|>x");
  }

  /**
   * A tag nested inside another, opened right after a '<': the scan removes the
   * inner tag and keeps the '<' and everything after the inner tag.
   */
  lemma StripTagsInnerTag(body: string, tail: string)
    requires NoNewline(body)
    requires forall k :: 0 <= k < |body| - 1 ==> !(body[k] == '|' && body[k + 1] == '>')
    requires NoTagOpen(tail)
    ensures StripTags(['<'] + ("<|" + body + "|>" + tail)) == ['<'] + tail
  {
    var inner := "<|" + body + "|>" + tail;
    var s := ['<'] + inner;
    assert s[1..] == inner;
    StripTagsKeepsFirst(s);
    StripTagsLeadingTag(body, tail);
    StripTagsNoTag(tail);
  }

  /**
   * Removing tags is not idempotent: a tag nested in another leaves the outer
   * tag's tail, which a second pass removes.
   */
  lemma CleanAsrTextNotIdempotent()
    ensures CleanAsrText(['<'] + ("<|x|>" + "|b|>")) == "<|b|>"
    ensures CleanAsrText(CleanAsrText(['<'] + ("<|x|>" + "|b|>"))) == ""
  {
    CleanAsrTextNestedOnce();
    CleanAsrTextOuterTail();
  }

  /** The first pass leaves the outer tag's tail. */
  lemma CleanAsrTextNestedOnce()
    ensures CleanAsrText(['<'] + ("<|x|>" + "|b|>")) == "<|b|>"
  {
    NestedTagsOnce();
    StripUnspaced("<|b|>");
  }

  /** The tag removal of the first pass, on its own. */
  lemma NestedTagsOnce()
    ensures StripTags(['<'] + ("<|x|>" + "|b|>")) == "<|b|>"
  {
    assert "<|x|>" + "|b|>" == "<|" + "x" + "|>" + "|b|>";
    StripTagsInnerTag("x", "|b|>");
    assert ['<'] + "|b|>" == "<|b|>";
  }

  /** The second pass removes that tail as a tag of its own. */
  lemma CleanAsrTextOuterTail()
    ensures CleanAsrText("<|b|>") == ""
  {
    assert "<|b|>" == "<|" + "b" + "|>" + "";
    StripTagsLeadingTag("b", "");
  }

  /** Text that neither starts nor ends with whitespace is left alone by `strip`. */
  lemma StripUnspaced(s: string)
    requires s == [] || (!IsSpace(s[0]) && !IsSpace(s[|s| - 1]))
    ensures Strip(s) == s
  {
    if s != [] {
      assert LeadingSpaces(s) == 0;
      assert s[0..] == s;
      assert TrailingSpaces(s) == 0;
    }
  }
}
