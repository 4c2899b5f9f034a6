/**
 * The QR verification code scheme: a code is `gl-` followed by the first
 * eight characters of a product identifier; the verification URL that the QR
 * image carries is `<origin>/verify/<code>`. Image generation itself is done
 * by a library and is not part of this model.
 */
module Qr {
  import opened Wrappers

  const Prefix: string := "gl-"

  /** How many characters of the product identifier a code keeps. */
  const ShortIdLength: nat := 8

  function Min(a: int, b: int): int { if a <= b then a else b }

  predicate StartsWith(s: string, prefix: string)
  {
    |prefix| <= |s| && s[..|prefix|] == prefix
  }

  predicate IsAsciiAlnum(c: char)
  {
    ('a' <= c <= 'z') || ('A' <= c <= 'Z') || ('0' <= c <= '9')
  }

  /** `generateCode`: `gl-` and then at most eight characters of the identifier. */
  function GenerateCode(productId: string): (code: string)
    ensures StartsWith(code, Prefix)
    ensures |code| == 3 + Min(ShortIdLength, |productId|)
  {
    Prefix + productId[..Min(ShortIdLength, |productId|)]
  }

  /**
   * `extractProductId`: no identifier unless the code starts with `gl-`;
   * otherwise the code with that prefix removed.
   */
  function ExtractProductId(code: string): (r: Option<string>)
    ensures r.None? <==> !StartsWith(code, Prefix)
    ensures r.Some? ==> Prefix + r.value == code
  {
    if StartsWith(code, Prefix) then Some(code[|Prefix|..]) else None
  }

  /*
   * `validateCode` tests the regular expression `^gl-[a-zA-Z0-9]+$`. It is
   * modelled as the automaton that recognises that expression, run over the
   * code one character at a time.
   */
  datatype MatchState = ExpectG | ExpectL | ExpectDash | ExpectAlnum | InAlnum | Rejected

  function Step(st: MatchState, c: char): MatchState
  {
    match st
    case ExpectG => if c == 'g' then ExpectL else Rejected
    case ExpectL => if c == 'l' then ExpectDash else Rejected
    case ExpectDash => if c == '-' then ExpectAlnum else Rejected
    case ExpectAlnum => if IsAsciiAlnum(c) then InAlnum else Rejected
    case InAlnum => if IsAsciiAlnum(c) then InAlnum else Rejected
    case Rejected => Rejected
  }

  function Run(st: MatchState, s: string): MatchState
    decreases |s|
  {
    if s == [] then st else Run(Step(st, s[0]), s[1..])
  }

  /** `validateCode`: the whole code matches `^gl-[a-zA-Z0-9]+$`. */
  predicate ValidateCode(code: string)
  {
    Run(ExpectG, code) == InAlnum
  }

  /** The codes the expression describes: `gl-`, then one or more ASCII letters or digits, then nothing. */
  predicate WellFormedCode(code: string)
  {
    |code| > |Prefix| && StartsWith(code, Prefix) &&
    forall i :: |Prefix| <= i < |code| ==> IsAsciiAlnum(code[i])
  }

  lemma {:induction false} RejectedStays(s: string)
    ensures Run(Rejected, s) == Rejected
  {
    if s != [] {
      RejectedStays(s[1..]);
    }
  }

  lemma {:induction false} RunOverAlnum(s: string)
    ensures Run(InAlnum, s) == InAlnum <==> forall i :: 0 <= i < |s| ==> IsAsciiAlnum(s[i])
  {
    if s != [] {
      if IsAsciiAlnum(s[0]) {
        RunOverAlnum(s[1..]);
        assert forall i :: 1 <= i < |s| ==> s[i] == s[1..][i - 1];
      } else {
        RejectedStays(s[1..]);
      }
    }
  }

  /** The automaton accepts exactly the well-formed codes. */
  lemma ValidateCodeIff(code: string)
    ensures ValidateCode(code) <==> WellFormedCode(code)
  {
    if code == [] {
      return;
    }
    assert Run(ExpectG, code) == Run(Step(ExpectG, code[0]), code[1..]);
    if code[0] != 'g' {
      RejectedStays(code[1..]);
      return;
    }
    if |code| == 1 {
      return;
    }
    assert code[1..][0] == code[1] && code[1..][1..] == code[2..];
    assert Run(ExpectL, code[1..]) == Run(Step(ExpectL, code[1]), code[2..]);
    if code[1] != 'l' {
      RejectedStays(code[2..]);
      return;
    }
    if |code| == 2 {
      return;
    }
    assert code[2..][0] == code[2] && code[2..][1..] == code[3..];
    assert Run(ExpectDash, code[2..]) == Run(Step(ExpectDash, code[2]), code[3..]);
    if code[2] != '-' {
      RejectedStays(code[3..]);
      assert !StartsWith(code, Prefix) by {
        assert code[..3][2] == code[2];
      }
      return;
    }
    assert code[..3] == Prefix;
    var tail := code[3..];
    assert Run(ExpectG, code) == Run(ExpectAlnum, tail);
    if tail == [] {
    } else if IsAsciiAlnum(tail[0]) {
      RunOverAlnum(tail[1..]);
      assert forall i :: 3 <= i < |code| ==> code[i] == tail[i - 3];
      assert forall i :: 1 <= i < |tail| ==> tail[i] == tail[1..][i - 1];
    } else {
      RejectedStays(tail[1..]);
      assert code[3] == tail[0];
    }
  }

  /** Extracting the identifier from a generated code gives back the identifier's first eight characters. */
  lemma ExtractGenerated(productId: string)
    ensures ExtractProductId(GenerateCode(productId)) == Some(productId[..Min(ShortIdLength, |productId|)])
  {
    var code := GenerateCode(productId);
    assert code[..3] == Prefix;
    assert code[3..] == productId[..Min(ShortIdLength, |productId|)];
  }

  /** A valid code always yields a non-empty identifier made of ASCII letters and digits. */
  lemma ValidCodeExtracts(code: string)
    requires ValidateCode(code)
    ensures ExtractProductId(code).Some?
    ensures var id := ExtractProductId(code).value;
      |id| > 0 && forall i :: 0 <= i < |id| ==> IsAsciiAlnum(id[i])
  {
    ValidateCodeIff(code);
    var id := ExtractProductId(code).value;
    assert forall i :: 0 <= i < |id| ==> id[i] == code[i + 3];
  }

  /**
   * A generated code is valid exactly when the identifier is non-empty and
   * its first eight characters are ASCII letters or digits.
   */
  lemma GeneratedCodeValidIff(productId: string)
    ensures ValidateCode(GenerateCode(productId)) <==>
      |productId| > 0 && forall i :: 0 <= i < Min(ShortIdLength, |productId|) ==> IsAsciiAlnum(productId[i])
  {
    var code := GenerateCode(productId);
    ValidateCodeIff(code);
    assert code[..3] == Prefix;
    assert forall i :: 3 <= i < |code| ==> code[i] == productId[i - 3];
  }

  /**
   * Identifiers of the form `prod-<suffix>`, which the farmer's registration
   * form assigns, give codes that fail validation, because the dash falls
   * within the eight characters a code keeps.
   */
  lemma DashedIdCodeRejected(suffix: string)
    ensures !ValidateCode(GenerateCode("prod-" + suffix))
  {
    var productId := "prod-" + suffix;
    GeneratedCodeValidIff(productId);
    assert productId[4] == '-' && !IsAsciiAlnum(productId[4]);
  }

  /** The URL string the QR image carries: `<origin>/verify/<code>`. */
  function VerifyUrl(origin: string, code: string): (url: string)
    ensures |url| == |origin| + 8 + |code|
    ensures url[..|origin|] == origin && url[|origin| + 8..] == code
    ensures url[|origin|..|origin| + 8] == "/verify/"
  {
    origin + "/verify/" + code
  }
}
