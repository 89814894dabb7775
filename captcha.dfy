/** `src/lib/captcha.ts`: the client-side captcha generator and the state
    of the `useCaptcha` hook. The random draws are an input: draw `i` is
    either the `i`-th random byte or `Math.floor(Math.random() * 36)`, and
    both are mapped to the alphabet by the same remainder. */
module Captcha {
  import opened Common
  import opened CaptchaService

  /** `generateCaptcha()` with its six random draws. */
  method GenerateCaptcha(draws: seq<nat>) returns (captcha: string)
    requires |draws| == CAPTCHA_LENGTH
    ensures captcha == FromAlphabet(draws)
    ensures |captcha| == CAPTCHA_LENGTH
    ensures forall i :: 0 <= i < |captcha| ==> IsUpperAscii(captcha[i]) || IsDigit(captcha[i])
  {
    captcha := "";
    var i := 0;
    while i < 6
      invariant 0 <= i <= 6
      invariant captcha == FromAlphabet(draws[..i])
    {
      captcha := captcha + [ALPHABET[draws[i] % |ALPHABET|]];
      i := i + 1;
    }
    assert draws[..6] == draws;
    FromAlphabetUpperAlphanumeric(draws);
  }

  /** The comparison `verifyCaptcha` makes. */
  predicate Matches(input: string, captcha: string) {
    Upper(input) == Upper(captcha)
  }

  /** The comparison is symmetric and ignores case on either side. */
  lemma MatchesSymmetricCaseInsensitive(input: string, captcha: string)
    ensures Matches(input, captcha) <==> Matches(captcha, input)
    ensures Matches(input, captcha) <==> Matches(Upper(input), captcha)
    ensures Matches(input, captcha) <==> Matches(input, Upper(captcha))
  {
    UpperIdempotent(input);
    UpperIdempotent(captcha);
  }

  /** Against a generated captcha, an input matches exactly when its
      upper-case form is the captcha itself. */
  lemma MatchesGenerated(input: string, draws: seq<nat>)
    ensures Matches(input, FromAlphabet(draws)) <==> Upper(input) == FromAlphabet(draws)
  {
    FromAlphabetUpperAlphanumeric(draws);
    UpperOfUpper(FromAlphabet(draws));
  }

  /** An empty input never matches a captcha of six characters. */
  lemma EmptyInputNeverMatches(captcha: string)
    requires |captcha| == CAPTCHA_LENGTH
    ensures !Matches("", captcha)
  {
  }

  /** The three pieces of state `useCaptcha` keeps. */
  class CaptchaState {
    var captcha: string
    var captchaInput: string
    var isVerified: bool

    /** The initial `useState` values, before the mount effect runs. */
    constructor ()
      ensures captcha == "" && captchaInput == "" && !isVerified
    {
      captcha := "";
      captchaInput := "";
      isVerified := false;
    }

    method SetCaptchaInput(input: string)
      modifies this
      ensures captchaInput == input
      ensures captcha == old(captcha) && isVerified == old(isVerified)
    {
      captchaInput := input;
    }

    /** `refreshCaptcha()`, also run once by the mount effect. */
    method RefreshCaptcha(draws: seq<nat>)
      requires |draws| == CAPTCHA_LENGTH
      modifies this
      ensures captcha == FromAlphabet(draws) && |captcha| == CAPTCHA_LENGTH
      ensures captchaInput == "" && !isVerified
    {
      captcha := GenerateCaptcha(draws);
      captchaInput := "";
      isVerified := false;
    }

    /** `verifyCaptcha()`: compare, record the verdict, return it. */
    method VerifyCaptcha() returns (isValid: bool)
      modifies this
      ensures isValid == Matches(captchaInput, captcha)
      ensures isVerified == isValid
      ensures captcha == old(captcha) && captchaInput == old(captchaInput)
    {
      isValid := Upper(captchaInput) == Upper(captcha);
      isVerified := isValid;
    }
  }

  /** Verifying right after a refresh always fails and records the failure. */
  method RefreshThenVerify(state: CaptchaState, draws: seq<nat>) returns (isValid: bool)
    requires |draws| == CAPTCHA_LENGTH
    modifies state
    ensures !isValid && !state.isVerified
  {
    state.RefreshCaptcha(draws);
    isValid := state.VerifyCaptcha();
    EmptyInputNeverMatches(state.captcha);
  }
}
