/** The cleanup applied to the generative model's reply before `JSON.parse`
    (content.service.ts, once in generateContent and once in generateOnlyQuiz). */
module ResponseNormalizer {
  import opened JsText
  import opened Seqs

  const OpeningFence := "```json"
  const ClosingFence := "```"

  /** Trim; drop a leading "```json"; then drop a trailing "```"; trim again. */
  function Normalize(raw: string): (cleaned: string)
    ensures Trimmed(cleaned)
    ensures |cleaned| <= |raw|
  {
    Trim(StripFences(Trim(raw)))
  }

  /** The two fence tests, in the source's order: the closing test looks at what
      the opening one left. */
  function StripFences(trimmed: string): (r: string)
    ensures |r| <= |trimmed|
  {
    var noOpening := if StartsWith(trimmed, OpeningFence) then trimmed[7..] else trimmed;
    if EndsWith(noOpening, ClosingFence) then noOpening[..|noOpening| - 3] else noOpening
  }

  /** A reply wrapped in a fence comes back as the trimmed text inside it. */
  lemma FencedReply(s: string)
    ensures Normalize(OpeningFence + s + ClosingFence) == Trim(s)
  {
    var raw := OpeningFence + s + ClosingFence;
    assert raw[0] == '`' && raw[|raw| - 1] == '`';
    TrimOfTrimmed(raw);
    assert raw[..7] == OpeningFence;
    var rest := raw[7..];
    assert rest == s + ClosingFence;
    assert rest[|rest| - 3..] == ClosingFence;
    assert rest[..|rest| - 3] == s;
  }

  /** A reply without fences comes back trimmed and otherwise unchanged. */
  lemma UnfencedReply(raw: string)
    requires !StartsWith(Trim(raw), OpeningFence) && !EndsWith(Trim(raw), ClosingFence)
    ensures Normalize(raw) == Trim(raw)
  {
  }

  /** Normalising never invents text: the result is a slice of the reply. */
  lemma NormalizeIsSlice(raw: string) returns (i: nat, j: nat)
    ensures i <= j <= |raw| && Normalize(raw) == raw[i..j]
  {
    var trimmed := Trim(raw);
    var stripped := StripFences(trimmed);
    var k := TrimIsSlice(raw);
    var a, b := StripFencesIsSlice(trimmed);
    var c := ComposeSlices(raw, trimmed, k, stripped, a, b);
    i := TrimOfSlice(raw, stripped, c);
    j := i + |Trim(stripped)|;
  }

  /** A slice of a slice is a slice of the whole. */
  lemma ComposeSlices(s: string, mid: string, k: nat, inner: string, a: nat, b: nat) returns (c: nat)
    requires k + |mid| <= |s| && mid == s[k..k + |mid|]
    requires a <= b <= |mid| && inner == mid[a..b]
    ensures c + |inner| <= |s| && inner == s[c..c + |inner|]
  {
    SliceOfSlice(s, mid, inner, k, a, b);
    c := k + a;
  }

  lemma StripFencesIsSlice(t: string) returns (a: nat, b: nat)
    ensures a <= b <= |t| && StripFences(t) == t[a..b]
  {
    a := if StartsWith(t, OpeningFence) then 7 else 0;
    var noOpening := t[a..];
    b := if EndsWith(noOpening, ClosingFence) then |t| - 3 else |t|;
  }

  /** Normalising is not idempotent: the two fence removals each act once, so
      a reply that is two closing fences loses one fence on each pass. */
  lemma NormalizeNotIdempotent()
    ensures Normalize("``````") == "```"
    ensures Normalize(Normalize("``````")) == ""
  {
    TwoFencesLoseOne();
    OneFenceVanishes();
  }

  lemma TwoFencesLoseOne()
    ensures Normalize("``````") == "```"
  {
  }

  lemma OneFenceVanishes()
    ensures Normalize("```") == ""
  {
    var one := "```";
    TrimOfTrimmed(one);
    assert StripFences(one) == "" by {
      assert !StartsWith(one, OpeningFence);
      assert one[0..] == ClosingFence;
    }
  }

  /** A second pass changes a result only if that result still starts or ends
      with a fence marker. */
  lemma NormalizeStable(raw: string)
    requires !StartsWith(Normalize(raw), OpeningFence) && !EndsWith(Normalize(raw), ClosingFence)
    ensures Normalize(Normalize(raw)) == Normalize(raw)
  {
    TrimOfTrimmed(Normalize(raw));
  }
}
