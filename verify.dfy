/**
 * The product verification page: a code typed in, taken from the route or
 * pulled out of a scanned URL is checked for shape, looked up among the
 * products, and on success shown with the product's farmer and timeline.
 */
module Verification {
  import opened Wrappers
  import opened Types
  import opened Seqs
  import opened StoreUtils
  import opened Qr

  /** The characters `String.prototype.trim` removes: white space and line terminators. */
  predicate IsJsWhitespace(c: char)
  {
    var n := c as int;
    n == 0x09 || n == 0x0A || n == 0x0B || n == 0x0C || n == 0x0D || n == 0x20 ||
    n == 0xA0 || n == 0x1680 || (0x2000 <= n <= 0x200A) || n == 0x2028 || n == 0x2029 ||
    n == 0x202F || n == 0x205F || n == 0x3000 || n == 0xFEFF
  }

  /** `!s.trim()`: nothing is left once surrounding white space is removed. */
  predicate IsBlank(s: string)
  {
    forall i :: 0 <= i < |s| ==> IsJsWhitespace(s[i])
  }

  /** How one verification attempt ends. */
  datatype Outcome =
    | EmptyInput
    | BadFormat
    | NotFound
    | Found(product: Product, events: seq<Event>, farmer: Option<UserProfile>)

  /**
   * The decision chain of `handleVerify`: blank input first; then the format
   * check, on the input as typed (not trimmed); then the first product whose
   * QR code identifier is exactly the input; then its farmer and timeline.
   */
  function VerifyDecision(input: string, s: AppState): Outcome
  {
    if IsBlank(input) then EmptyInput
    else if !ValidateCode(input) then BadFormat
    else match FirstIndex(s.products, (p: Product) => p.qrCodeId == input)
      case None => NotFound
      case Some(i) =>
        var product := s.products[i];
        Found(product, EventsForProduct(product.id, s), FindUser(s.users, product.farmerId))
  }

  /**
   * What `handleVerify` concludes: a blank input is refused before anything
   * else; a non-blank input that is not a well-formed code is refused for its
   * format; a well-formed code no product carries is not found; otherwise the
   * first product carrying it is shown with its timeline and its farmer.
   */
  lemma VerifyDecisionMeaning(input: string, s: AppState)
    ensures VerifyDecision(input, s).EmptyInput? <==> IsBlank(input)
    ensures VerifyDecision(input, s).BadFormat? <==> !IsBlank(input) && !ValidateCode(input)
    ensures VerifyDecision(input, s).NotFound? <==>
      !IsBlank(input) && ValidateCode(input) && forall p :: p in s.products ==> p.qrCodeId != input
    ensures var o := VerifyDecision(input, s);
      o.Found? ==>
        (exists i :: 0 <= i < |s.products| && s.products[i] == o.product &&
           forall j :: 0 <= j < i ==> s.products[j].qrCodeId != input) &&
        o.product.qrCodeId == input &&
        o.events == EventsForProduct(o.product.id, s) &&
        o.farmer == FindUser(s.users, o.product.farmerId)
  {
    if !IsBlank(input) && ValidateCode(input) {
      var first := FirstIndex(s.products, (p: Product) => p.qrCodeId == input);
      if first.None? {
        forall p | p in s.products ensures p.qrCodeId != input {
          var k :| 0 <= k < |s.products| && s.products[k] == p;
        }
      }
    }
  }

  /** A code typed with a leading space is rejected for its format, even if it names a product. */
  lemma LeadingSpaceRejected(code: string, s: AppState)
    requires !IsBlank(code)
    ensures VerifyDecision(" " + code, s) == BadFormat
  {
    var input := " " + code;
    VerifyDecisionMeaning(input, s);
    var i :| 0 <= i < |code| && !IsJsWhitespace(code[i]);
    assert input[i + 1] == code[i];
    assert Run(ExpectG, input) == Run(Rejected, input[1..]);
    RejectedStays(input[1..]);
  }

  /**
   * Products registered through the farmer's form, whose identifiers start
   * with `prod-`, carry codes that can never be verified.
   */
  lemma DashedProductNeverVerified(suffix: string, s: AppState)
    ensures !VerifyDecision(GenerateCode("prod-" + suffix), s).Found?
  {
    DashedIdCodeRejected(suffix);
    VerifyDecisionMeaning(GenerateCode("prod-" + suffix), s);
  }

  /** A well-formed code carried by a product is found, whatever else the store holds. */
  lemma ValidCodeOfStoredProductFound(p: Product, s: AppState)
    requires p in s.products && ValidateCode(p.qrCodeId)
    ensures VerifyDecision(p.qrCodeId, s).Found?
  {
    VerifyDecisionMeaning(p.qrCodeId, s);
    ValidateCodeIff(p.qrCodeId);
    assert p.qrCodeId[..3][0] == p.qrCodeId[0];
    assert !IsJsWhitespace(p.qrCodeId[0]);
  }

  /** The text of the toast shown after an attempt. */
  datatype Toast =
    | InvalidCode
    | VerificationFailed(reason: string)
    | ProductVerified(productName: string, farmerName: string)

  /** `farmerDetails?.name || 'Unknown farmer'`: an empty name counts as missing. */
  function FarmerLabel(farmer: Option<UserProfile>): (name: string)
    ensures name != []
    ensures farmer.Some? && farmer.value.name != [] ==> name == farmer.value.name
  {
    if farmer.Some? && farmer.value.name != [] then farmer.value.name else "Unknown farmer"
  }

  function ToastFor(o: Outcome): Toast
  {
    match o
    case EmptyInput => InvalidCode
    case BadFormat => VerificationFailed("Invalid code format")
    case NotFound => VerificationFailed("Product not found")
    case Found(product, _, farmer) => ProductVerified(product.name, FarmerLabel(farmer))
  }

  /** The page's state: the text in the input box and the last verified product with its details. */
  class VerifyPage {
    var inputCode: string
    var verifiedProduct: Option<Product>
    var productEvents: seq<Event>
    var farmer: Option<UserProfile>
    var isVerifying: bool

    /**
     * Opening the page on a route: the input box starts with the route's code
     * (or empty), and the code is verified at once unless it is absent, empty
     * or `demo`.
     */
    constructor (routeCode: Option<string>, s: AppState)
      ensures inputCode == routeCode.GetOr("")
      ensures !ShouldAutoVerify(routeCode) ==>
        verifiedProduct.None? && productEvents == [] && farmer.None? && !isVerifying
      ensures ShouldAutoVerify(routeCode) ==> Shows(VerifyDecision(routeCode.value, s), None, [], None, false)
    {
      inputCode := routeCode.GetOr("");
      verifiedProduct := None;
      productEvents := [];
      farmer := None;
      isVerifying := false;
      new;
      if ShouldAutoVerify(routeCode) {
        var _ := HandleVerify(s);
      }
    }

    /**
     * What the page shows after an attempt with outcome `o`, given what it
     * showed before: a blank input changes nothing; a failure clears the
     * product, its events and its farmer; a success shows them. The busy flag
     * is down after every attempt that got past the blank check.
     */
    predicate Shows(o: Outcome, oldProduct: Option<Product>, oldEvents: seq<Event>,
                    oldFarmer: Option<UserProfile>, oldBusy: bool)
      reads this
    {
      match o
      case EmptyInput =>
        verifiedProduct == oldProduct && productEvents == oldEvents && farmer == oldFarmer && isVerifying == oldBusy
      case BadFormat =>
        verifiedProduct.None? && productEvents == [] && farmer.None? && !isVerifying
      case NotFound =>
        verifiedProduct.None? && productEvents == [] && farmer.None? && !isVerifying
      case Found(product, events, owner) =>
        verifiedProduct == Some(product) && productEvents == events && farmer == owner && !isVerifying
    }

    /** `handleVerify` against the store `s`: the outcome of the decision chain on the current input. */
    method HandleVerify(s: AppState) returns (toast: Toast)
      modifies this
      ensures inputCode == old(inputCode)
      ensures Shows(VerifyDecision(inputCode, s), old(verifiedProduct), old(productEvents), old(farmer), old(isVerifying))
      ensures toast == ToastFor(VerifyDecision(inputCode, s))
    {
      var o := VerifyDecision(inputCode, s);
      toast := ToastFor(o);
      if !o.EmptyInput? {
        Display(o);
      }
    }

    /** The state updates of a verification attempt that got past the blank check, `finally` included. */
    method Display(o: Outcome)
      requires !o.EmptyInput?
      modifies this
      ensures inputCode == old(inputCode)
      ensures Shows(o, old(verifiedProduct), old(productEvents), old(farmer), old(isVerifying))
    {
      isVerifying := true;
      if o.Found? {
        verifiedProduct := Some(o.product);
        productEvents := o.events;
        farmer := o.farmer;
      } else {
        verifiedProduct := None;
        productEvents := [];
        farmer := None;
      }
      isVerifying := false;
    }

    /**
     * `handleScanResult`: the input box receives the code pulled out of the
     * scanned text. The verification it schedules on a timer is not part of
     * this model.
     */
    method HandleScanResult(scanned: string)
      modifies this
      ensures inputCode == ExtractScannedCode(scanned)
      ensures verifiedProduct == old(verifiedProduct) && productEvents == old(productEvents)
      ensures farmer == old(farmer) && isVerifying == old(isVerifying)
    {
      inputCode := ExtractScannedCode(scanned);
    }
  }

  /** The effect on the route code: verify at once when a code other than `demo` is given. */
  predicate ShouldAutoVerify(routeCode: Option<string>)
  {
    routeCode.Some? && routeCode.value != [] && routeCode.value != "demo"
  }

  const VerifyMarker: string := "/verify/"

  /**
   * Where `/\/verify\/([^?]+)/` can match: the marker at `i`, followed by at
   * least one character other than `?`.
   */
  predicate MatchesAt(text: string, i: nat)
  {
    MarkerAt(text, i) && i + |VerifyMarker| < |text| && text[i + |VerifyMarker|] != '?'
  }

  /** `/verify/` occurs in `text` at position `i`. */
  predicate MarkerAt(text: string, i: nat)
  {
    i + |VerifyMarker| <= |text| && text[i..i + |VerifyMarker|] == VerifyMarker
  }

  /** The leftmost position at or after `start` where the expression matches. */
  function FirstMatch(text: string, start: nat): (r: Option<nat>)
    ensures r.Some? ==> start <= r.value && MatchesAt(text, r.value)
    ensures r.Some? ==> forall j :: start <= j < r.value ==> !MatchesAt(text, j)
    ensures r.None? ==> forall j :: start <= j ==> !MatchesAt(text, j)
    decreases |text| - start
  {
    if start >= |text| then None
    else if MatchesAt(text, start) then Some(start)
    else FirstMatch(text, start + 1)
  }

  /** The longest prefix of `s` without a `?`: what `[^?]+` consumes. */
  function UpToQuery(s: string): (r: string)
    ensures |r| <= |s| && r == s[..|r|]
    ensures forall i :: 0 <= i < |r| ==> r[i] != '?'
    ensures |r| == |s| || s[|r|] == '?'
  {
    if s == [] || s[0] == '?' then []
    else [s[0]] + UpToQuery(s[1..])
  }

  /**
   * The code `handleScanResult` takes from scanned text: after the leftmost
   * `/verify/` that is followed by something other than `?`, everything up to
   * the next `?` or the end; the whole text when there is no such place.
   */
  function ExtractScannedCode(text: string): (code: string)
    ensures FirstMatch(text, 0).None? ==> code == text
    ensures FirstMatch(text, 0).Some? ==>
      var start := FirstMatch(text, 0).value + |VerifyMarker|;
      code != [] && start + |code| <= |text| && code == text[start..start + |code|] &&
      (forall i :: 0 <= i < |code| ==> code[i] != '?') &&
      (start + |code| == |text| || text[start + |code|] == '?')
  {
    match FirstMatch(text, 0)
    case None => text
    case Some(i) =>
      var rest := text[i + |VerifyMarker|..];
      assert rest[0] != '?';
      UpToQuery(rest)
  }

  /**
   * Scanning a QR image the application generated gives back the code it was
   * generated for, when the code is non-empty and has no `?` and the origin
   * does not itself contain `/verify/` before the appended one.
   */
  lemma ScanRoundTrip(origin: string, code: string)
    requires code != [] && forall i :: 0 <= i < |code| ==> code[i] != '?'
    requires forall i :: 0 <= i < |origin| ==> !MarkerAt(origin + VerifyMarker, i)
    ensures ExtractScannedCode(VerifyUrl(origin, code)) == code
  {
    var url := VerifyUrl(origin, code);
    var n := |origin|;
    assert url[n..n + 8] == VerifyMarker;
    assert url[n + 8] == code[0];
    assert MatchesAt(url, n);
    assert url[..n + 8] == origin + VerifyMarker;
    forall j | 0 <= j < n ensures !MatchesAt(url, j) {
      assert !MarkerAt(origin + VerifyMarker, j);
      assert url[j..j + 8] == url[..n + 8][j..j + 8];
    }
    assert FirstMatch(url, 0) == Some(n);
    var got := ExtractScannedCode(url);
    assert got == url[n + 8..n + 8 + |got|];
    assert url[n + 8..] == code;
  }

  /** `getStatusColor`: the colour class of a product status badge. */
  function StatusColor(status: ProductStatus): (c: string)
    ensures (status == Delivered || status == Verified) <==> c == "text-success"
    ensures status == InTransit <==> c == "text-blockchain"
    ensures status == Registered <==> c == "text-primary"
    ensures (status == PickupScheduled || status == Expired) <==> c == "text-muted-foreground"
  {
    match status
    case Delivered => "text-success"
    case Verified => "text-success"
    case InTransit => "text-blockchain"
    case Registered => "text-primary"
    case _ => "text-muted-foreground"
  }
}
