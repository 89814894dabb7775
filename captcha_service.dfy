/** `src/lib/captcha-service.ts`: the server-side captcha format check and
    the generator that maps random bytes onto a 36-character alphabet. The
    random bytes are an input. */
module CaptchaService {
  import opened Common

  const ALPHABET: string := "ABCDEFGHIJKLMNOPQRSTUVWXYZ0123456789"
  const CAPTCHA_LENGTH: nat := 6

  const LENGTH_MESSAGE: string := "Captcha harus terdiri dari 6 karakter"
  const CHARS_MESSAGE: string := "Captcha hanya boleh mengandung huruf dan angka"
  const VALID_MESSAGE: string := "Captcha valid"

  type Byte = b: int | 0 <= b < 256

  datatype CaptchaValidation = CaptchaValidation(isValid: bool, message: string)

  /** The regular expression `/^[A-Z0-9]+$/i`. */
  predicate AlphanumericOnly(s: string) {
    |s| > 0 && forall i :: 0 <= i < |s| ==> IsAlphanumeric(s[i])
  }

  /** `validateCaptcha(captcha, sessionCaptcha)`: only the format is checked. */
  function ValidateCaptcha(captcha: string, sessionCaptcha: Option<string>): (r: CaptchaValidation)
    ensures r.isValid <==> |captcha| == CAPTCHA_LENGTH && forall i :: 0 <= i < |captcha| ==> IsAlphanumeric(captcha[i])
    ensures |captcha| != CAPTCHA_LENGTH ==> r.message == LENGTH_MESSAGE
    ensures |captcha| == CAPTCHA_LENGTH && !r.isValid ==> r.message == CHARS_MESSAGE
    ensures r.isValid ==> r.message == VALID_MESSAGE
  {
    if captcha == "" || |captcha| != CAPTCHA_LENGTH then
      CaptchaValidation(false, LENGTH_MESSAGE)
    else if !AlphanumericOnly(captcha) then
      CaptchaValidation(false, CHARS_MESSAGE)
    else
      CaptchaValidation(true, VALID_MESSAGE)
  }

  /** The captcha stored for the session plays no part in the verdict. */
  lemma SessionCaptchaIgnored(captcha: string, s1: Option<string>, s2: Option<string>)
    ensures ValidateCaptcha(captcha, s1) == ValidateCaptcha(captcha, s2)
  {
  }

  /** Every character of the alphabet is an upper-case ASCII letter or a digit. */
  lemma AlphabetUpperAlphanumeric(i: int)
    requires 0 <= i < |ALPHABET|
    ensures IsUpperAscii(ALPHABET[i]) || IsDigit(ALPHABET[i])
  {
  }

  /** The characters `chars.charAt(bytes[i] % chars.length)`, one per byte. */
  function FromAlphabet(bytes: seq<int>): (r: string)
    ensures |r| == |bytes|
    ensures forall i :: 0 <= i < |r| ==> r[i] == ALPHABET[bytes[i] % |ALPHABET|]
  {
    seq(|bytes|, i requires 0 <= i < |bytes| => ALPHABET[bytes[i] % |ALPHABET|])
  }

  /** A generated string consists of upper-case letters and digits only. */
  lemma FromAlphabetUpperAlphanumeric(bytes: seq<int>)
    ensures forall i :: 0 <= i < |bytes| ==>
      IsUpperAscii(FromAlphabet(bytes)[i]) || IsDigit(FromAlphabet(bytes)[i])
  {
    forall i | 0 <= i < |bytes|
      ensures IsUpperAscii(FromAlphabet(bytes)[i]) || IsDigit(FromAlphabet(bytes)[i])
    {
      AlphabetUpperAlphanumeric(bytes[i] % |ALPHABET|);
    }
  }

  /** Six generated characters always pass the format check. */
  lemma GeneratedPassesValidation(bytes: seq<int>, sessionCaptcha: Option<string>)
    requires |bytes| == CAPTCHA_LENGTH
    ensures ValidateCaptcha(FromAlphabet(bytes), sessionCaptcha).isValid
  {
    FromAlphabetUpperAlphanumeric(bytes);
  }

  /** `generateSecureCaptcha(length)` with `randomBytes` as the bytes that
      `crypto.getRandomValues` (or the `Math.random` fallback) produced. */
  method GenerateSecureCaptcha(randomBytes: seq<Byte>, length: nat := 6) returns (captcha: string)
    requires |randomBytes| == length
    ensures captcha == FromAlphabet(randomBytes)
    ensures length == CAPTCHA_LENGTH ==> ValidateCaptcha(captcha, None).isValid
  {
    captcha := "";
    for i := 0 to length
      invariant captcha == FromAlphabet(randomBytes[..i])
    {
      captcha := captcha + [ALPHABET[randomBytes[i] % |ALPHABET|]];
    }
    assert randomBytes[..length] == randomBytes;
    if length == CAPTCHA_LENGTH {
      GeneratedPassesValidation(randomBytes, None);
    }
  }
}
