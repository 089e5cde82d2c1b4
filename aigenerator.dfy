/**
 * The AI wallpaper studio of components/AIGenerator.tsx: the blank-prompt
 * guard, the state reset before a request, the mapping of returned images to
 * wallpaper records with synthesized ids, and the classification of errors
 * into quota errors and others. The image service is not modelled: its
 * answer (the images' base64 payloads, or an error message) is a parameter,
 * and so is the clock `Date.now()` reads.
 */
module AIGenerator {
  import opened Types
  import opened JsString

  const DATA_URL_PREFIX: string := "data:image/jpeg;base64,"
  const AI_CATEGORY: string := "ai-generated"
  const QUOTA_MESSAGE: string := "You've reached your generation quota."
  const GENERIC_MESSAGE: string := "Sorry, we couldn't create your wallpaper. Please try a different prompt."

  /** The id `ai-${Date.now()}-${index}` of a generated wallpaper (AIGenerator.tsx:48). */
  function GeneratedId(now: nat, index: nat): (id: string)
    ensures |id| > 3 && id[..3] == "ai-"
  {
    "ai-" + NumberToString(now) + "-" + NumberToString(index)
  }

  /** The number of leading decimal digits of `s`. */
  function DigitRun(s: string): (n: nat)
    ensures n <= |s|
  {
    if s != [] && IsDigit(s[0]) then 1 + DigitRun(s[1..]) else 0
  }

  /** In `a + "-" + b` with `a` all digits, the leading digits are exactly `a`. */
  lemma {:induction false} DigitRunBeforeDash(a: string, b: string)
    requires forall i :: 0 <= i < |a| ==> IsDigit(a[i])
    ensures DigitRun(a + "-" + b) == |a|
  {
    if a != [] {
      assert (a + "-" + b)[1..] == a[1..] + "-" + b;
      DigitRunBeforeDash(a[1..], b);
    }
  }

  /** Distinct (clock reading, index) pairs give distinct ids. */
  lemma GeneratedIdInjective(t1: nat, k1: nat, t2: nat, k2: nat)
    requires GeneratedId(t1, k1) == GeneratedId(t2, k2)
    ensures t1 == t2 && k1 == k2
  {
    var a1, b1 := NumberToString(t1), NumberToString(k1);
    var a2, b2 := NumberToString(t2), NumberToString(k2);
    var s1, s2 := a1 + "-" + b1, a2 + "-" + b2;
    assert s1 == GeneratedId(t1, k1)[3..];
    assert s2 == GeneratedId(t2, k2)[3..];
    DigitRunBeforeDash(a1, b1);
    DigitRunBeforeDash(a2, b2);
    assert a1 == s1[..|a1|] && a2 == s2[..|a2|];
    assert b1 == s1[|a1| + 1..] && b2 == s2[|a2| + 1..];
    NumberToStringInjective(t1, t2);
    NumberToStringInjective(k1, k2);
  }

  /**
   * The batch built from the returned images (AIGenerator.tsx:47-52): one
   * wallpaper per image, in order; `clock(k)` is what `Date.now()` returns
   * while the k-th image is mapped.
   */
  function MakeWallpapers(images: seq<string>, clock: nat -> nat): (ws: seq<Wallpaper>)
    ensures |ws| == |images|
    ensures forall k :: 0 <= k < |ws| ==>
              ws[k] == Wallpaper(GeneratedId(clock(k), k), DATA_URL_PREFIX + images[k], AI_CATEGORY, false)
  {
    seq(|images|, k requires 0 <= k < |images| =>
      Wallpaper(GeneratedId(clock(k), k), DATA_URL_PREFIX + images[k], AI_CATEGORY, false))
  }

  /**
   * The ids of one batch are pairwise distinct and start with "ai-", however
   * the clock moves while the batch is mapped; every record is free and in
   * the "ai-generated" category.
   */
  lemma BatchWellFormed(images: seq<string>, clock: nat -> nat)
    ensures var ws := MakeWallpapers(images, clock);
            forall i, j :: 0 <= i < j < |ws| ==> ws[i].id != ws[j].id
    ensures forall w :: w in MakeWallpapers(images, clock) ==>
              w.id[..3] == "ai-" && !w.premium && w.categoryId == AI_CATEGORY
  {
    var ws := MakeWallpapers(images, clock);
    forall i, j | 0 <= i < j < |ws| ensures ws[i].id != ws[j].id {
      if ws[i].id == ws[j].id {
        GeneratedIdInjective(clock(i), i, clock(j), j);
      }
    }
  }

  /**
   * The quota markers of AIGenerator.tsx:59: the status "429", the phrase
   * "exceeded your current quota", or "RESOURCE_EXHAUSTED" in any letter
   * case.
   */
  predicate IsQuotaError(message: string): (quota: bool)
    ensures Includes(message, "resource_exhausted") ==> quota
    ensures Includes(message, "RESOURCE_EXHAUSTED") ==> quota
  {
    QuotaMarkerSpellings();
    QuotaMarkerAnyCase(message, "resource_exhausted");
    QuotaMarkerAnyCase(message, "RESOURCE_EXHAUSTED");
    Includes(message, "429") || Includes(ToUpperCase(message), "RESOURCE_EXHAUSTED")
    || Includes(message, "exceeded your current quota")
  }

  /** A message holding the resource marker in any letter case is a quota error. */
  lemma QuotaMarkerAnyCase(message: string, marker: string)
    requires ToUpperCase(marker) == "RESOURCE_EXHAUSTED"
    ensures Includes(message, marker) ==> Includes(ToUpperCase(message), "RESOURCE_EXHAUSTED")
  {
    if Includes(message, marker) {
      IncludesUpperCase(message, marker);
    }
  }

  /** Both usual spellings of the resource marker upper-case to it. */
  lemma QuotaMarkerSpellings()
    ensures ToUpperCase("resource_exhausted") == "RESOURCE_EXHAUSTED"
    ensures ToUpperCase("RESOURCE_EXHAUSTED") == "RESOURCE_EXHAUSTED"
  {
  }

  /** The error text and quota flag set for a failed request (AIGenerator.tsx:58-65). */
  function Classify(message: string): (r: (string, bool))
    ensures r.1 <==> IsQuotaError(message)
    ensures r.0 == QUOTA_MESSAGE || r.0 == GENERIC_MESSAGE
    ensures r.0 == QUOTA_MESSAGE <==> r.1
  {
    if IsQuotaError(message) then (QUOTA_MESSAGE, true) else (GENERIC_MESSAGE, false)
  }

  /** The three markers, checked on example messages. */
  lemma ClassifyExamples()
    ensures Classify("got status 429").1
    ensures Classify("quota resource_exhausted").1
    ensures !Classify("network error").1
  {
    assert OccursAt("got status 429", "429", 11);
    assert OccursAt(ToUpperCase("quota resource_exhausted"), "RESOURCE_EXHAUSTED", 6);
    var m := "network error";
    forall i | 0 <= i <= |m| - 3 ensures !OccursAt(m, "429", i) {
      assert m[i] != '4';
    }
  }

  /** The Generate button's `disabled` rule (AIGenerator.tsx:133). */
  predicate GenerateDisabled(isGenerating: bool, prompt: string): (disabled: bool)
    ensures disabled <==> isGenerating || IsBlank(prompt)
  {
    isGenerating || Trim(prompt) == ""
  }

  /**
   * The button is enabled exactly when no generation is running and the
   * prompt has a character other than whitespace, which is when a submit
   * sends a request (see `Studio.BeginGenerate`).
   */
  lemma GenerateEnabledIff(isGenerating: bool, prompt: string)
    ensures !GenerateDisabled(isGenerating, prompt) <==>
              !isGenerating && exists i :: 0 <= i < |prompt| && !IsWhitespace(prompt[i])
  {
  }

  /** The studio's state: the prompt field, the batch on show, the progress flag and the error. */
  class Studio {
    var prompt: string
    var generatedImages: seq<Wallpaper>
    var isGenerating: bool
    var error: Option<string>
    var isQuotaError: bool
    const initialPrompt: string

    /** A mounted studio before its effects run (AIGenerator.tsx:15-20). */
    constructor (initialPrompt: string)
      ensures this.initialPrompt == initialPrompt && prompt == initialPrompt
      ensures generatedImages == [] && !isGenerating && error.None? && !isQuotaError
    {
      this.initialPrompt := initialPrompt;
      prompt := initialPrompt;
      generatedImages := [];
      isGenerating := false;
      error := None;
      isQuotaError := false;
    }

    /** Typing in the prompt field (AIGenerator.tsx:125). */
    method SetPrompt(p: string)
      modifies this
      ensures prompt == p
      ensures generatedImages == old(generatedImages) && isGenerating == old(isGenerating)
      ensures error == old(error) && isQuotaError == old(isQuotaError)
    {
      prompt := p;
    }

    /**
     * The synchronous part of `handleGenerate` (AIGenerator.tsx:22-29): a
     * blank trimmed prompt returns at once, changing nothing and sending
     * nothing; otherwise the trimmed prompt is sent, with the progress flag
     * set and the error, quota flag and shown batch cleared.
     */
    method BeginGenerate() returns (request: Option<string>)
      modifies this
      ensures IsBlank(old(prompt)) ==> request.None? && unchanged(this)
      ensures !IsBlank(old(prompt)) ==>
                && request == Some(Trim(old(prompt)))
                && isGenerating && error.None? && !isQuotaError && generatedImages == []
                && prompt == old(prompt)
    {
      // `!prompt.trim()`: the trimmed prompt is empty exactly when the prompt is blank
      if IsBlank(prompt) {
        return None;
      }
      var current := Trim(prompt);
      isGenerating := true;
      error := None;
      isQuotaError := false;
      generatedImages := [];
      request := Some(current);
    }

    /**
     * The rest of `handleGenerate` once the service answered
     * (AIGenerator.tsx:47-68). On success the new batch is shown and
     * returned, to be appended to the application's list; on failure nothing
     * is returned, the shown batch stays as it was (empty after
     * BeginGenerate) and the error is classified. The progress flag is
     * cleared either way.
     */
    method FinishGenerate(outcome: Result<seq<string>>, clock: nat -> nat) returns (added: seq<Wallpaper>)
      modifies this
      ensures !isGenerating && prompt == old(prompt)
      ensures outcome.Success? ==>
                && added == MakeWallpapers(outcome.value, clock) && generatedImages == added
                && error == old(error) && isQuotaError == old(isQuotaError)
      ensures outcome.Failure? ==>
                && added == [] && generatedImages == old(generatedImages)
                && error == Some(Classify(outcome.message).0) && isQuotaError == Classify(outcome.message).1
    {
      match outcome {
        case Success(images) =>
          added := MakeWallpapers(images, clock);
          generatedImages := added;
        case Failure(message) =>
          var (text, quota) := Classify(message);
          error := Some(text);
          isQuotaError := quota;
          added := [];
      }
      isGenerating := false;
    }

    /**
     * The mount effect (AIGenerator.tsx:72-76): a non-empty initial prompt
     * starts a generation with it, as if submitted.
     */
    method Mount() returns (request: Option<string>)
      requires prompt == initialPrompt
      modifies this
      ensures initialPrompt == "" ==> request.None? && unchanged(this)
      ensures !IsBlank(initialPrompt) ==>
                request == Some(Trim(initialPrompt)) && isGenerating && generatedImages == []
      ensures IsBlank(initialPrompt) ==> request.None? && unchanged(this)
    {
      request := None;
      if initialPrompt != "" {
        request := BeginGenerate();
      }
    }
  }
}
