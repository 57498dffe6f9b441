/** The guardrail evaluator of app/guardrails.py: a prompt-length limit, a case-insensitive
    blocked-term filter and a cap on the requested token count, all switched off together
    by `enable_guardrails`. */
module Guardrails {
  import opened Base
  import opened Text
  import opened Config

  /** `GuardrailViolation`, one constructor per place that raises it. */
  datatype GuardrailViolation =
    | PromptTooLong(maxPromptChars: int)
    | BlockedContent
    | TooManyTokens(maxRequestNewTokens: int)

  const PromptTooLongPrefix := "Prompt exceeds MAX_PROMPT_CHARS="
  const BlockedContentMessage := "Prompt contains blocked content based on BLOCKED_TERMS policy"
  const TooManyTokensPrefix := "max_new_tokens exceeds MAX_REQUEST_NEW_TOKENS="

  /** The message each violation is raised with. The blocked-term message names no term. */
  function Message(v: GuardrailViolation): (m: string)
    ensures v.PromptTooLong? ==> IsPrefix(PromptTooLongPrefix, m) && |m| > |PromptTooLongPrefix|
    ensures v.TooManyTokens? ==> IsPrefix(TooManyTokensPrefix, m) && |m| > |TooManyTokensPrefix|
    ensures v.BlockedContent? ==> m == BlockedContentMessage
  {
    match v
    case PromptTooLong(n) => PromptTooLongPrefix + IntToString(n)
    case BlockedContent => BlockedContentMessage
    case TooManyTokens(n) => TooManyTokensPrefix + IntToString(n)
  }

  /** A normalised blocked term: non-empty, no surrounding whitespace, lower-case. */
  predicate IsBlockedTerm(t: string)
  {
    t != [] && IsStripped(t) && IsLower(t)
  }

  /** What one piece contributes: its stripped, lower-cased self, or nothing when blank. */
  function PieceTerm(piece: string): (terms: seq<string>)
    ensures |terms| <= 1
    ensures forall k :: 0 <= k < |terms| ==> IsBlockedTerm(terms[k])
  {
    var t := Strip(piece);
    LowerKeepsSpace(t);
    if t == [] then [] else [Lower(t)]
  }

  /** The comprehension of `__post_init__`: each piece stripped and lower-cased, blank
      pieces dropped, order kept. */
  function KeepTerms(pieces: seq<string>): (terms: seq<string>)
    ensures |terms| <= |pieces|
    ensures forall k :: 0 <= k < |terms| ==> IsBlockedTerm(terms[k])
    decreases |pieces|
  {
    if pieces == [] then [] else PieceTerm(pieces[0]) + KeepTerms(pieces[1..])
  }

  /** `blocked_terms` as `__post_init__` derives it from the comma-separated setting. */
  function ParseBlockedTerms(raw: string): (terms: seq<string>)
    ensures forall k :: 0 <= k < |terms| ==> IsBlockedTerm(terms[k])
  {
    KeepTerms(Split(raw, ','))
  }

  /** The term check of `validate_prompt`: some term occurs in the lower-cased prompt. */
  predicate Blocked(terms: seq<string>, prompt: string)
    ensures Blocked(terms, prompt) ==> exists k :: 0 <= k < |terms| && |terms[k]| <= |prompt|
  {
    exists k :: 0 <= k < |terms| && Contains(Lower(prompt), terms[k])
  }

  class Guardrails {
    const settings: Settings
    const blockedTerms: seq<string>

    /** The dataclass constructor followed by `__post_init__`. */
    constructor (settings: Settings)
      ensures this.settings == settings
      ensures blockedTerms == ParseBlockedTerms(settings.blockedTerms)
    {
      this.settings := settings;
      blockedTerms := ParseBlockedTerms(settings.blockedTerms);
    }

    /** `validate_prompt`: nothing when disabled; otherwise the length check first, then
        the term check, which rejects with the same violation whichever term matched. */
    method ValidatePrompt(prompt: string) returns (r: Outcome<GuardrailViolation>)
      ensures !settings.enableGuardrails ==> r == Pass
      ensures settings.enableGuardrails && |prompt| > settings.maxPromptChars ==>
        r == Fail(PromptTooLong(settings.maxPromptChars))
      ensures settings.enableGuardrails && |prompt| <= settings.maxPromptChars ==>
        r == (if Blocked(blockedTerms, prompt) then Fail(BlockedContent) else Pass)
    {
      if !settings.enableGuardrails {
        return Pass;
      }
      if |prompt| > settings.maxPromptChars {
        return Fail(PromptTooLong(settings.maxPromptChars));
      }
      var lowered := Lower(prompt);
      for i := 0 to |blockedTerms|
        invariant forall k :: 0 <= k < i ==> !Contains(lowered, blockedTerms[k])
      {
        if Contains(lowered, blockedTerms[i]) {
          return Fail(BlockedContent);
        }
      }
      return Pass;
    }

    /** `validate_max_new_tokens`: rejects exactly a request above the cap while enabled;
        a request equal to the cap passes. */
    function ValidateMaxNewTokens(requested: int): (r: Outcome<GuardrailViolation>)
      ensures r != Pass <==> settings.enableGuardrails && requested > settings.maxRequestNewTokens
      ensures r != Pass ==> r == Fail(TooManyTokens(settings.maxRequestNewTokens))
    {
      if !settings.enableGuardrails then Pass
      else if requested > settings.maxRequestNewTokens then Fail(TooManyTokens(settings.maxRequestNewTokens))
      else Pass
    }
  }

  // ---------------------------------------------------------------- properties

  lemma {:induction false} KeepTermsConcat(x: seq<string>, y: seq<string>)
    ensures KeepTerms(x + y) == KeepTerms(x) + KeepTerms(y)
    decreases |x|
  {
    if x == [] {
      assert x + y == y;
    } else {
      assert (x + y)[0] == x[0] && (x + y)[1..] == x[1..] + y;
      KeepTermsConcat(x[1..], y);
      assert KeepTerms(x + y) == PieceTerm(x[0]) + (KeepTerms(x[1..]) + KeepTerms(y));
    }
  }

  /** The terms of `a,b` are the terms of `a` followed by those of `b`. */
  lemma ParseBlockedTermsConcat(a: string, b: string)
    ensures ParseBlockedTerms(a + "," + b) == ParseBlockedTerms(a) + ParseBlockedTerms(b)
  {
    SplitConcat(a, b, ',');
    KeepTermsConcat(Split(a, ','), Split(b, ','));
  }

  /** A piece without a comma gives its stripped, lower-cased self, or nothing when blank. */
  lemma ParseBlockedTermsPiece(s: string)
    requires ',' !in s
    ensures ParseBlockedTerms(s) == if Strip(s) == [] then [] else [Lower(Strip(s))]
  {
    SplitNoSeparator(s, ',');
    assert KeepTerms([s]) == PieceTerm(s) + KeepTerms([]);
  }

  /** An empty setting blocks nothing, whatever the prompt. */
  lemma EmptySettingBlocksNothing(prompt: string)
    ensures ParseBlockedTerms("") == []
    ensures !Blocked(ParseBlockedTerms(""), prompt)
  {
    ParseBlockedTermsPiece("");
    StripUnique([], [], []);
  }

  /** A prompt that contains a blocked term still does with any text around it. */
  lemma BlockedAnywhere(terms: seq<string>, pre: string, prompt: string, post: string)
    requires Blocked(terms, prompt)
    ensures Blocked(terms, pre + prompt + post)
  {
    var k :| 0 <= k < |terms| && Contains(Lower(prompt), terms[k]);
    var t, lp := terms[k], Lower(prompt);
    var i :| 0 <= i <= |lp| - |t| && IsPrefix(t, lp[i..]);
    LowerConcat(pre, prompt);
    LowerConcat(pre + prompt, post);
    var big := Lower(pre + prompt + post);
    var j := |pre| + i;
    assert big[j..][..|t|] == lp[i..][..|t|];
    assert IsPrefix(t, big[j..]);
  }

  /** A piece that is already a normalised term is kept as it is. */
  lemma ParseBlockedTermsWord(w: string)
    requires IsBlockedTerm(w) && ',' !in w
    ensures ParseBlockedTerms(w) == [w]
  {
    ParseBlockedTermsPiece(w);
    StripUnique([], w, []);
    assert [] + w + [] == w;
    LowerOfLower(w);
  }

  /** Two normalised terms joined by a comma parse back to those two terms, in order. */
  lemma ParseBlockedTermsPair(a: string, b: string)
    requires IsBlockedTerm(a) && ',' !in a
    requires IsBlockedTerm(b) && ',' !in b
    ensures ParseBlockedTerms(a + "," + b) == [a, b]
  {
    ParseBlockedTermsConcat(a, b);
    ParseBlockedTermsWord(a);
    ParseBlockedTermsWord(b);
  }

  /** A prompt containing any case variant of a term, anywhere, even inside a longer
      word, is blocked by that term. */
  lemma CaseVariantBlocked(terms: seq<string>, k: nat, pre: string, w: string, post: string)
    requires k < |terms| && Lower(w) == terms[k]
    ensures Blocked(terms, pre + w + post)
  {
    LowerConcat(pre, w);
    LowerConcat(pre + w, post);
    var lp := Lower(pre + w + post);
    assert lp[|pre|..][..|w|] == Lower(w);
    assert Contains(lp, terms[k]);
  }

  /** With `blocked_terms="foo,bar"` the prompt "this has FOO in it" is rejected.
      The strings arrive as parameters fixed by `requires`, which keeps the solver from
      unfolding `Strip` and `Lower` on literals. */
  lemma BlockedExample(foo: string, bar: string, pre: string, w: string, post: string)
    requires foo == "foo" && bar == "bar"
    requires pre == "this has " && w == "FOO" && post == " in it"
    ensures ParseBlockedTerms(foo + "," + bar) == [foo, bar]
    ensures Blocked(ParseBlockedTerms(foo + "," + bar), pre + w + post)
  {
    assert IsBlockedTerm(foo) && ',' !in foo;
    assert IsBlockedTerm(bar) && ',' !in bar;
    ParseBlockedTermsPair(foo, bar);
    assert Lower(w) == foo;
    CaseVariantBlocked([foo, bar], 0, pre, w, post);
  }

  /** The length violation names its limit, and the limit reads back from the message. */
  lemma PromptTooLongMessage(n: int)
    ensures Message(PromptTooLong(n))[..|PromptTooLongPrefix|] == PromptTooLongPrefix
    ensures WithinMaxStrDigits(n) ==>
      ParseInt(Message(PromptTooLong(n))[|PromptTooLongPrefix|..]) == Some(n)
  {
    if WithinMaxStrDigits(n) {
      ParseIntToString(n);
    }
    assert Message(PromptTooLong(n))[|PromptTooLongPrefix|..] == IntToString(n);
  }

  /** The token-cap violation names its cap, which reads back from the message in the same
      way. */
  lemma TooManyTokensMessage(n: int)
    ensures Message(TooManyTokens(n))[..|TooManyTokensPrefix|] == TooManyTokensPrefix
    ensures WithinMaxStrDigits(n) ==>
      ParseInt(Message(TooManyTokens(n))[|TooManyTokensPrefix|..]) == Some(n)
  {
    if WithinMaxStrDigits(n) {
      ParseIntToString(n);
    }
    assert Message(TooManyTokens(n))[|TooManyTokensPrefix|..] == IntToString(n);
  }
}
