// The text handling around the generative-model client: a reply is split
// on the `---SPEECH---` marker into display text and speech text, markdown
// characters are stripped from speech, a streamed reply is the in-order
// concatenation of its chunks, and JSON replies lose their code fences
// before they are parsed. The model calls themselves are inputs.
module Gemini {
  import opened Wrappers
  import opened JsText

  const SpeechMarker: string := "---SPEECH---"

  /** The characters `replace(/[*#`]/g, '')` deletes. */
  const MarkdownChars: set<char> := {'*', '#', '`'}

  const ApiKeyErrorText: string := "시스템 오류: API 키가 설정되지 않았습니다."
  const ApiKeyErrorSpeech: string := "API 키 오류가 발생했습니다."
  const ErrorText: string := "오류가 발생했습니다."

  // ---- Searching and splitting ----

  /** A slice of a slice is a slice of the whole. */
  lemma SliceOfSlice(s: string, a: nat, b: nat, i: nat, j: nat)
    requires a <= b <= |s| && i <= j <= b - a
    ensures s[a..b][i..j] == s[a + i..a + j]
  {
    forall k | 0 <= k < j - i ensures s[a..b][i..j][k] == s[a + i..a + j][k] {
      assert s[a..b][i..j][k] == s[a..b][i + k];
    }
  }

  lemma OccursShift(s: string, sub: string)
    requires s != []
    ensures forall j :: 0 <= j ==> (OccursAt(s, sub, j + 1) <==> OccursAt(s[1..], sub, j))
  {
    forall j | 0 <= j
      ensures OccursAt(s, sub, j + 1) <==> OccursAt(s[1..], sub, j)
    {
      if j + 1 + |sub| <= |s| {
        SliceOfSlice(s, 1, |s|, j, j + |sub|);
      }
    }
  }

  /** `s.indexOf(sub)`: the first index where `sub` occurs, or -1. */
  function IndexOf(s: string, sub: string): (k: int)
    ensures -1 <= k <= |s|
    ensures k >= 0 ==> OccursAt(s, sub, k)
    decreases |s|
  {
    if StartsWith(s, sub) then 0
    else if s == [] then -1
    else
      var r := IndexOf(s[1..], sub);
      OccursShift(s, sub);
      if r == -1 then -1 else r + 1
  }

  /** No occurrence comes before the index found, and -1 means there is no
    * occurrence at all. */
  lemma {:induction false} IndexOfIsFirst(s: string, sub: string)
    ensures IndexOf(s, sub) >= 0 ==> forall j :: 0 <= j < IndexOf(s, sub) ==> !OccursAt(s, sub, j)
    ensures IndexOf(s, sub) == -1 ==> forall j :: !OccursAt(s, sub, j)
    decreases |s|
  {
    if !StartsWith(s, sub) && s != [] {
      IndexOfIsFirst(s[1..], sub);
      OccursShift(s, sub);
      assert !OccursAt(s, sub, 0) by {
        if |sub| <= |s| {
          assert s[0..|sub|] == s[..|sub|];
        }
      }
      forall j | j > 0 ensures OccursAt(s, sub, j) == OccursAt(s[1..], sub, j - 1) {
      }
    }
  }

  /** `s.split(sep)` for a non-empty separator: the pieces between
    * successive occurrences, left to right. */
  function Split(s: string, sep: string): (parts: seq<string>)
    requires |sep| > 0
    ensures |parts| >= 1
    decreases |s|
  {
    var k := IndexOf(s, sep);
    if k == -1 then [s] else [s[..k]] + Split(s[k + |sep|..], sep)
  }

  /** `parts.join(sep)`. */
  function Join(parts: seq<string>, sep: string): string
  {
    if parts == [] then []
    else if |parts| == 1 then parts[0]
    else parts[0] + sep + Join(parts[1..], sep)
  }

  /** Joining a piece in front of at least one other puts the separator
    * between them. */
  lemma JoinCons(a: string, tail: seq<string>, sep: string)
    requires |tail| >= 1
    ensures Join([a] + tail, sep) == a + sep + Join(tail, sep)
  {
    assert ([a] + tail)[1..] == tail;
  }

  /** Joining a head in front of pieces that join to the rest gives
    * head, separator and rest. */
  lemma JoinStep(s: string, sep: string, head: string, rest: string, tail: seq<string>)
    requires |tail| >= 1 && Join(tail, sep) == rest && s == head + sep + rest
    ensures Join([head] + tail, sep) == s
  {
    JoinCons(head, tail, sep);
  }

  /** An occurrence cuts the text into what precedes it, the separator and
    * what follows it. */
  lemma CutAround(s: string, sep: string, k: int)
    requires OccursAt(s, sep, k)
    ensures s == s[..k] + sep + s[k + |sep|..]
  {
    assert s == s[..k] + s[k..k + |sep|] + s[k + |sep|..];
  }

  /** One step of `Split` at the first occurrence. */
  lemma SplitUnfold(s: string, sep: string)
    requires |sep| > 0 && IndexOf(s, sep) != -1
    ensures Split(s, sep) == [s[..IndexOf(s, sep)]] + Split(s[IndexOf(s, sep) + |sep|..], sep)
  {
  }

  /** Joining the pieces with the separator gives the text back. */
  lemma {:induction false} SplitJoin(s: string, sep: string)
    requires |sep| > 0
    ensures Join(Split(s, sep), sep) == s
    decreases |s|
  {
    var k := IndexOf(s, sep);
    if k != -1 {
      var rest := s[k + |sep|..];
      SplitUnfold(s, sep);
      SplitJoin(rest, sep);
      CutAround(s, sep, k);
      JoinStep(s, sep, s[..k], rest, Split(rest, sep));
    }
  }

  /** The text before the first occurrence holds no occurrence. */
  lemma PrefixBeforeFirst(s: string, sub: string)
    requires |sub| > 0 && IndexOf(s, sub) >= 0
    ensures forall j :: !OccursAt(s[..IndexOf(s, sub)], sub, j)
  {
    var k := IndexOf(s, sub);
    IndexOfIsFirst(s, sub);
    assert s[..k] == s[0..k];
    forall j ensures !OccursAt(s[..k], sub, j) {
      SliceOccurrence(s, 0, k, sub, j);
    }
  }

  /** The first piece is the text up to the first separator (all of it
    * when there is none), it holds no separator, and there is more than
    * one piece exactly when the separator occurs. */
  lemma SplitFirst(s: string, sep: string)
    requires |sep| > 0
    ensures Split(s, sep)[0] == (if IndexOf(s, sep) == -1 then s else s[..IndexOf(s, sep)])
    ensures forall j :: !OccursAt(Split(s, sep)[0], sep, j)
    ensures |Split(s, sep)| > 1 <==> Includes(s, sep)
  {
    IncludesIff(s, sep);
    IndexOfIsFirst(s, sep);
    if IndexOf(s, sep) != -1 {
      PrefixBeforeFirst(s, sep);
    }
  }

  /** Trimming keeps a contiguous slice of the text. */
  lemma TrimIsSlice(s: string) returns (a: nat, b: nat)
    ensures a <= b <= |s| && Trim(s) == s[a..b]
  {
    var t := TrimStart(s);
    a := |s| - |t|;
    b := a + |TrimEnd(t)|;
    assert TrimEnd(t) == t[..|TrimEnd(t)|];
  }

  /** Trimming cannot create an occurrence. */
  lemma TrimKeepsAbsence(s: string, sub: string)
    requires forall j :: !OccursAt(s, sub, j)
    ensures forall j :: !OccursAt(Trim(s), sub, j)
  {
    var a, b := TrimIsSlice(s);
    forall j ensures !OccursAt(Trim(s), sub, j) {
      SliceOccurrence(s, a, b, sub, j);
    }
  }

  /** An occurrence inside a slice is an occurrence in the whole text. */
  lemma SliceOccurrence(s: string, a: nat, b: nat, sub: string, j: int)
    requires a <= b <= |s|
    ensures OccursAt(s[a..b], sub, j) ==> OccursAt(s, sub, a + j)
  {
    if OccursAt(s[a..b], sub, j) {
      SliceOfSlice(s, a, b, j, j + |sub|);
    }
  }

  // ---- Replies ----

  datatype Reply = Reply(text: string, speech: string)

  /** The reply `sendMessage`/`sendMessageStream` build from the model's
    * full text: unchanged in role-play, otherwise split on the marker. */
  function ParseReply(fullText: string, isRoleplay: bool): (r: Reply)
    ensures isRoleplay ==> r.text == fullText && r.speech == fullText
    ensures !isRoleplay ==> !Includes(r.text, SpeechMarker)
  {
    if isRoleplay then Reply(fullText, fullText)
    else
      var parts := Split(fullText, SpeechMarker);
      SplitFirst(fullText, SpeechMarker);
      TrimKeepsAbsence(parts[0], SpeechMarker);
      IncludesIff(Trim(parts[0]), SpeechMarker);
      var displayText := Trim(parts[0]);
      var speechText := if |parts| > 1 then Trim(parts[1]) else RemoveChars(displayText, MarkdownChars);
      Reply(displayText, speechText)
  }

  /** Role-play replies pass through; otherwise the display text is the
    * trimmed text before the first marker and never holds a marker; the
    * speech is the trimmed text between the first and second marker, or,
    * without a marker, the display text with no markdown characters. */
  lemma ParseReplyFacts(fullText: string)
    ensures ParseReply(fullText, true) == Reply(fullText, fullText)
    ensures IndexOf(fullText, SpeechMarker) == -1 ==>
      ParseReply(fullText, false) == Reply(Trim(fullText), RemoveChars(Trim(fullText), MarkdownChars))
    ensures IndexOf(fullText, SpeechMarker) >= 0 ==>
      var k := IndexOf(fullText, SpeechMarker);
      ParseReply(fullText, false) == Reply(Trim(fullText[..k]), Trim(Split(fullText[k + |SpeechMarker|..], SpeechMarker)[0]))
    ensures !Includes(ParseReply(fullText, false).text, SpeechMarker)
    ensures forall i :: 0 <= i < |ParseReply(fullText, false).speech| && IndexOf(fullText, SpeechMarker) == -1 ==>
      ParseReply(fullText, false).speech[i] !in MarkdownChars
  {
    SplitFirst(fullText, SpeechMarker);
    var k := IndexOf(fullText, SpeechMarker);
    if k >= 0 {
      IncludesIff(fullText, SpeechMarker);
      assert Split(fullText, SpeechMarker)[1] == Split(fullText[k + |SpeechMarker|..], SpeechMarker)[0];
    }
    var parts := Split(fullText, SpeechMarker);
    TrimKeepsAbsence(parts[0], SpeechMarker);
    IncludesIff(Trim(parts[0]), SpeechMarker);
  }

  /** `chunks.join('')`. */
  function Concat(chunks: seq<string>): string
  {
    if chunks == [] then [] else Concat(chunks[..|chunks| - 1]) + chunks[|chunks| - 1]
  }

  /** Concatenation distributes over appending chunk lists. */
  lemma {:induction false} ConcatAppend(a: seq<string>, b: seq<string>)
    ensures Concat(a + b) == Concat(a) + Concat(b)
    decreases |b|
  {
    if b == [] {
      assert a + b == a;
    } else {
      var front, last := b[..|b| - 1], b[|b| - 1];
      assert a + b == (a + front) + [last];
      assert b == front + [last];
      calc {
        Concat(a + b);
        == { ConcatSnoc(a + front, last); }
        Concat(a + front) + last;
        == { ConcatAppend(a, front); }
        Concat(a) + Concat(front) + last;
        == { ConcatSnoc(front, last); }
        Concat(a) + Concat(b);
      }
    }
  }

  /** One more chunk appends that chunk to the text. */
  lemma ConcatSnoc(chunks: seq<string>, c: string)
    ensures Concat(chunks + [c]) == Concat(chunks) + c
  {
    assert (chunks + [c])[..|chunks|] == chunks;
  }

  /** The format instruction appended to a non-role-play message: one per
    * supported language, Korean for any other code. */
  function LangInstruction(language: string, isRoleplay: bool): string
  {
    if isRoleplay then ""
    else
      var (before, after) := InstructionParts(language);
      before + SpeechMarker + after
  }

  /** The words around the marker in each instruction. */
  function InstructionParts(language: string): (string, string)
  {
    if language == "en" then
      ("\n(Please respond in English. Keep the same format: Display Text ", " Speech Text)")
    else if language == "es" then
      ("\n(Por favor responde en Español. Mantén el mismo formato: Texto de Pantalla ", " Texto de Voz)")
    else if language == "pt-br" then
      ("\n(Por favor responda em Português do Brasil. Mantenha o mesmo formato: Texto de Exibição ", " Texto de Fala)")
    else
      ("\n(한국어로 답변해주세요. 형식은 동일하게 유지하세요: 화면 텍스트 ", " 음성 텍스트)")
  }

  /** Every non-role-play instruction asks for the marker format; role-play
    * messages get none. */
  lemma InstructionNamesMarker(language: string)
    ensures LangInstruction(language, true) == ""
    ensures Includes(LangInstruction(language, false), SpeechMarker)
  {
    var (before, after) := InstructionParts(language);
    var s := LangInstruction(language, false);
    assert s[|before|..|before| + |SpeechMarker|] == SpeechMarker;
    assert OccursAt(s, SpeechMarker, |before|);
    IncludesIff(s, SpeechMarker);
  }

  /** `langMap[language] || 'English'`. */
  function LangName(language: string): (name: string)
    ensures language !in {"ko", "en", "es", "pt-br"} ==> name == "English"
  {
    if language == "ko" then "Korean"
    else if language == "en" then "English"
    else if language == "es" then "Spanish"
    else if language == "pt-br" then "Portuguese"
    else "English"
  }

  /** `sendMessage`: without an API key a fixed error pair, on a failed
    * call (None) the generic error, otherwise the parsed reply. */
  function SendMessageReply(hasApiKey: bool, isRoleplay: bool, response: Option<string>): (r: Reply)
    ensures !hasApiKey ==> r == Reply(ApiKeyErrorText, ApiKeyErrorSpeech)
    ensures hasApiKey && response.None? ==> r == Reply(ErrorText, ErrorText)
    ensures hasApiKey && response.Some? && isRoleplay ==> r == Reply(response.value, response.value)
    ensures hasApiKey && response.Some? && !isRoleplay ==> !Includes(r.text, SpeechMarker)
  {
    if !hasApiKey then Reply(ApiKeyErrorText, ApiKeyErrorSpeech)
    else if response.None? then Reply(ErrorText, ErrorText)
    else ParseReply(response.value, isRoleplay)
  }

  /** A model call that fails behind a configured key, plain or streamed,
    * in roleplay or not, answers with the generic error text, as display
    * and as speech. */
  lemma FailedCallReply(isRoleplay: bool)
    ensures SendMessageReply(true, isRoleplay, None) == Reply(ErrorText, ErrorText)
  {
  }

  /** The `for await` loop of `sendMessageStream`: each chunk is appended
    * to the full text and handed to `onChunk` (`emitted`), in order. */
  method Accumulate(stream: seq<string>) returns (fullText: string, emitted: seq<string>)
    ensures emitted == stream
    ensures fullText == Concat(stream)
  {
    fullText := "";
    emitted := [];
    var i := 0;
    while i < |stream|
      invariant 0 <= i <= |stream|
      invariant emitted == stream[..i]
      invariant fullText == Concat(emitted)
    {
      ConcatSnoc(emitted, stream[i]);
      assert stream[..i + 1] == stream[..i] + [stream[i]];
      fullText := fullText + stream[i];
      emitted := emitted + [stream[i]];
      i := i + 1;
    }
    assert stream[..i] == stream;
  }

  /** `sendMessageStream`: the chunks the model streams are appended to the
    * full text and passed to `onChunk` one by one, in order (`emitted`);
    * `fails` says the stream broke after those chunks. Without an API key
    * the error text is emitted once and nothing is sent (`sent` is None).
    * The reply is the one `sendMessage` builds from the same full text. */
  method SendMessageStream(hasApiKey: bool, message: string, language: string, isRoleplay: bool,
                           stream: seq<string>, fails: bool)
    returns (reply: Reply, emitted: seq<string>, sent: Option<string>)
    ensures !hasApiKey ==> emitted == [ApiKeyErrorText] && sent.None?
    ensures hasApiKey ==> emitted == stream && sent == Some(message + LangInstruction(language, isRoleplay))
    ensures reply == SendMessageReply(hasApiKey, isRoleplay, if fails then None else Some(Concat(stream)))
  {
    if !hasApiKey {
      return Reply(ApiKeyErrorText, ApiKeyErrorSpeech), [ApiKeyErrorText], None;
    }
    sent := Some(message + LangInstruction(language, isRoleplay));
    var fullText;
    fullText, emitted := Accumulate(stream);
    if fails {
      reply := Reply(ErrorText, ErrorText);
    } else {
      reply := ParseReply(fullText, isRoleplay);
    }
  }

  // ---- Code-fence cleanup ----

  /** `s.replace(/pat/g, '')` for a literal pattern: matches are removed
    * left to right without overlapping. */
  function RemoveAll(s: string, pat: string): (r: string)
    requires |pat| > 0
    ensures |r| <= |s|
    decreases |s|
  {
    if s == [] then []
    else if StartsWith(s, pat) then RemoveAll(s[|pat|..], pat)
    else [s[0]] + RemoveAll(s[1..], pat)
  }

  const Fence: string := "```"

  /** `text.replace(/```json/g, '').replace(/```/g, '').trim()`. */
  function CleanJsonText(text: string): string
  {
    Trim(RemoveAll(RemoveAll(text, "```json"), Fence))
  }

  /** When the text does not open a fence, what is left after the fence
    * removal does not start with two backticks. */
  lemma NoDoubleTickAfter(t: string)
    requires !StartsWith(t, "``")
    ensures !StartsWith(RemoveAll(t, Fence), "``")
  {
    if t != [] && t[0] == '`' && |t| > 1 {
      assert !StartsWith(t, Fence);
      assert !StartsWith(t[1..], Fence);
    }
  }

  /** No fence survives the removal of fences: a backtick kept in front of
    * the rest never completes a new fence. */
  lemma {:induction false} RemoveFencesLeavesNone(s: string)
    ensures !Includes(RemoveAll(s, Fence), Fence)
    decreases |s|
  {
    if s != [] {
      if StartsWith(s, Fence) {
        RemoveFencesLeavesNone(s[|Fence|..]);
      } else {
        RemoveFencesLeavesNone(s[1..]);
        var rest := RemoveAll(s[1..], Fence);
        var r := RemoveAll(s, Fence);
        assert r == [s[0]] + rest && r[1..] == rest;
        if s[0] == '`' {
          assert !StartsWith(s[1..], "``") by {
            if |s| >= 3 {
              assert s[..3] == [s[0]] + s[1..][..2];
            }
          }
          NoDoubleTickAfter(s[1..]);
        }
        assert !StartsWith(r, Fence);
      }
    }
  }

  /** Cleaned feedback and course text holds no code fence. */
  lemma CleanJsonHasNoFence(text: string)
    ensures !Includes(CleanJsonText(text), Fence)
  {
    var removed := RemoveAll(RemoveAll(text, "```json"), Fence);
    RemoveFencesLeavesNone(RemoveAll(text, "```json"));
    IncludesIff(removed, Fence);
    TrimKeepsAbsence(removed, Fence);
    IncludesIff(Trim(removed), Fence);
  }

  /** A pattern that does not occur is not removed. */
  lemma {:induction false} RemoveAllIdle(s: string, pat: string)
    requires |pat| > 0
    requires forall j :: !OccursAt(s, pat, j)
    ensures RemoveAll(s, pat) == s
    decreases |s|
  {
    if s != [] {
      assert !OccursAt(s, pat, 0);
      assert !StartsWith(s, pat);
      OccursShift(s, pat);
      RemoveAllIdle(s[1..], pat);
    }
  }

  /** Text without a backtick is only trimmed. */
  lemma CleanPlainText(text: string)
    requires '`' !in text
    ensures CleanJsonText(text) == Trim(text)
  {
    forall j ensures !OccursAt(text, "```json", j) {
      if 0 <= j && j + 7 <= |text| {
        assert text[j] in text;
        assert text[j..j + 7][0] == text[j];
      }
    }
    RemoveAllIdle(text, "```json");
    forall j ensures !OccursAt(text, Fence, j) {
      if 0 <= j && j + 3 <= |text| {
        assert text[j] in text;
        assert text[j..j + 3][0] == text[j];
      }
    }
    RemoveAllIdle(text, Fence);
  }
}
