/** `OpenAIService.sanitizePrompt` (openai.service.ts): delete disallowed
    characters, trim, keep at most 500 characters. The method is private and
    nothing calls it: `generateImage` posts its prompt unfiltered. */
module PromptSanitizer {
  import opened JsText
  import opened Seqs

  const MaxPromptLength: nat := 500

  /** The regex class `[a-zA-Z0-9.,!?'"()\s]`: ASCII letters and digits, eight
      punctuation marks, and whitespace. */
  predicate IsAllowed(c: char) {
    ('a' <= c <= 'z') || ('A' <= c <= 'Z') || ('0' <= c <= '9') ||
    c == '.' || c == ',' || c == '!' || c == '?' || c == '\'' || c == '"' ||
    c == '(' || c == ')' || IsWhitespace(c)
  }

  /** Deletes every disallowed character and keeps the allowed ones in order. */
  function RemoveDisallowed(prompt: string): (r: string)
    ensures forall i :: 0 <= i < |r| ==> IsAllowed(r[i])
  {
    Filter(prompt, IsAllowed)
  }

  /** The first n characters, or the whole string when it is shorter. */
  function SliceTo(s: string, n: nat): (r: string)
    ensures |r| <= n && |r| <= |s|
    ensures r == s[..|r|]
    ensures |s| <= n ==> r == s
  {
    if |s| <= n then s else s[..n]
  }

  /** `sanitizePrompt`: filter, trim, then slice to 500 characters. */
  function Sanitize(prompt: string): (r: string)
    ensures |r| <= MaxPromptLength
  {
    SliceTo(Trim(RemoveDisallowed(prompt)), MaxPromptLength)
  }

  /** The output is at most 500 characters long, holds only allowed characters,
      and does not start with whitespace. */
  lemma SanitizeBounds(prompt: string)
    ensures |Sanitize(prompt)| <= MaxPromptLength
    ensures forall i :: 0 <= i < |Sanitize(prompt)| ==> IsAllowed(Sanitize(prompt)[i])
    ensures |Sanitize(prompt)| > 0 ==> !IsWhitespace(Sanitize(prompt)[0])
  {
    var f := RemoveDisallowed(prompt);
    var k := TrimIsSlice(f);
    var t := Trim(f);
    forall i | 0 <= i < |t| ensures IsAllowed(t[i]) {
      assert t[i] == f[k + i];
    }
  }

  /** The output is a prefix of the trimmed, filtered prompt, and all of it when
      that string is at most 500 characters long. */
  lemma SanitizeIsPrefix(prompt: string)
    ensures Sanitize(prompt) == Trim(RemoveDisallowed(prompt))[..|Sanitize(prompt)|]
    ensures |Trim(RemoveDisallowed(prompt))| <= MaxPromptLength ==>
              Sanitize(prompt) == Trim(RemoveDisallowed(prompt))
    ensures |Trim(RemoveDisallowed(prompt))| > MaxPromptLength ==>
              |Sanitize(prompt)| == MaxPromptLength
  {
  }

  /** A prompt that is already clean (allowed characters only, no surrounding
      whitespace, at most 500 characters) passes through unchanged. */
  lemma CleanPromptUnchanged(prompt: string)
    requires forall i :: 0 <= i < |prompt| ==> IsAllowed(prompt[i])
    requires Trimmed(prompt)
    requires |prompt| <= MaxPromptLength
    ensures Sanitize(prompt) == prompt
  {
    FilterKeepsAll(prompt, IsAllowed);
    TrimOfTrimmed(prompt);
  }

  /** Sanitizing is not idempotent: cutting at 500 characters can leave a
      trailing space, which a second pass trims away. */
  lemma SanitizeNotIdempotent() returns (prompt: string)
    ensures Sanitize(Sanitize(prompt)) != Sanitize(prompt)
  {
    var letters := seq(499, _ => 'a');
    prompt := letters + " b";
    assert forall i :: 0 <= i < |prompt| ==> IsAllowed(prompt[i]);
    FilterKeepsAll(prompt, IsAllowed);
    assert prompt[0] == 'a' && prompt[|prompt| - 1] == 'b';
    TrimOfTrimmed(prompt);
    var once := prompt[..500];
    assert Sanitize(prompt) == once;
    assert once == letters + " ";
    assert forall i :: 0 <= i < |once| ==> IsAllowed(once[i]);
    FilterKeepsAll(once, IsAllowed);
    assert TrimStartIndex(once, 0) == 0;
    assert TrimEndIndex(once, 0, 500) == TrimEndIndex(once, 0, 499) == 499;
    assert |Sanitize(once)| == 499;
  }
}
