/**
 * The Receiver role: the REST endpoint `wc-xsr/v1/generate` that mints a
 * single-use coupon for one product and answers with its code and a claim URL.
 * Coupons live in the store's coupon table, modelled as a sequence in save order.
 */
module Receiver {
  import opened Php
  import opened Config

  const CodePrefix := "XSR-"
  const PasswordLength := 8
  const ProductIdParam := "reward_product_id"
  const AddToCartArg := "add-to-cart"
  const CouponCodeArg := "coupon_code"

  /** What `wp_generate_password(8, false)` returns: 8 letters or digits, no special characters. */
  predicate IsPassword(password: string)
  {
    && |password| == PasswordLength
    && forall i :: 0 <= i < |password| ==> IsLower(password[i]) || IsUpper(password[i]) || IsDigit(password[i])
  }

  /** `api_permission_check`: the `X-XSR-Secret` header (None when absent) is strictly equal to the stored secret. */
  function PermissionCheck(settings: Settings, secretHeader: Option<string>): (granted: bool)
    ensures granted <==> secretHeader.Some? && secretHeader.value == GetSecret(settings)
  {
    secretHeader == Some(GetSecret(settings))
  }

  /** With no secret saved, only a request carrying an empty `X-XSR-Secret` header is let through. */
  lemma UnsetSecretAdmitsOnlyEmptyHeader(settings: Settings, secretHeader: Option<string>)
    requires SecretKey !in settings
    ensures PermissionCheck(settings, secretHeader) <==> secretHeader == Some("")
  {
  }

  /** A `WC_Coupon` as this plugin fills it in. */
  datatype Coupon = Coupon(
    code: string,
    discountType: string,
    amount: int,
    individualUse: bool,
    productIds: seq<int>,
    usageLimit: int,
    description: string)

  /** A coupon as `new WC_Coupon()` starts out, before any setter runs. */
  const BlankCoupon := Coupon("", "fixed_cart", 0, false, [], 0, "")

  /** A URL as `add_query_arg` builds it: a base URL with query arguments set on it. */
  datatype Url = WithQueryArgs(base: string, args: map<string, string>)

  /** The body of a successful generate response. */
  datatype Generated = Generated(code: string, claimUrl: Url)

  /** A `WP_Error` turned into a REST response: machine-readable code, message and HTTP status. */
  datatype RestError = RestError(code: string, message: string, status: int)

  const NoProduct := RestError("no_product", "No Product ID provided", 400)

  /** What WordPress answers an anonymous caller whose permission callback returned false. */
  const Forbidden := RestError("rest_forbidden", "Sorry, you are not allowed to do that.", 401)

  /** `isset($params['reward_product_id']) ? intval(...) : 0` over the decoded JSON body. */
  function RequestedProductId(params: Json): (id: int)
    ensures Field(params, ProductIdParam).None? ==> id == 0
    ensures Field(params, ProductIdParam).Some? ==> id == IntVal(Field(params, ProductIdParam).value)
    ensures id != 0 ==> Field(params, ProductIdParam).Some? && Truthy(Field(params, ProductIdParam).value)
  {
    match Field(params, ProductIdParam)
    case Some(v) => IntVal(v)
    case None => 0
  }

  function CouponCode(password: string): string
  {
    CodePrefix + StrToUpper(password)
  }

  function Description(productId: int): string
  {
    "Cross-site reward for product ID " + IntToString(productId)
  }

  /** Every generated code carries the `XSR-` namespace and eight upper-case letters or digits. */
  lemma CouponCodeShape(password: string)
    requires IsPassword(password)
    ensures var code := CouponCode(password);
      && |code| == 12
      && code[..4] == CodePrefix
      && forall i :: 4 <= i < 12 ==> IsUpper(code[i]) || IsDigit(code[i])
  {
    var code := CouponCode(password);
    forall i | 4 <= i < 12
      ensures IsUpper(code[i]) || IsDigit(code[i])
    {
      assert code[i] == UpperChar(password[i - 4]);
    }
  }

  /** The claim URL: the cart URL with `add-to-cart` set to the product id and `coupon_code` to the code. */
  function ClaimUrl(cartUrl: string, productId: int, code: string): (url: Url)
    ensures url.base == cartUrl
    ensures url.args.Keys == {AddToCartArg, CouponCodeArg}
    ensures StringIntVal(url.args[AddToCartArg]) == productId
    ensures url.args[CouponCodeArg] == code
  {
    assert AddToCartArg[0] != CouponCodeArg[0];
    IntValOfIntToString(productId);
    WithQueryArgs(cartUrl, map[AddToCartArg := IntToString(productId), CouponCodeArg := code])
  }

  /**
   * The coupon that `api_generate_coupon` saves and the response it returns, or
   * the `no_product` error when the requested id is missing or reads as 0.
   */
  function GenerateOutcome(params: Json, password: string, cartUrl: string): (r: Result<(Coupon, Generated), RestError>)
    ensures r.Failure? <==> Field(params, ProductIdParam).None? || IntVal(Field(params, ProductIdParam).value) == 0
    ensures r.Failure? ==> r.error == NoProduct
    ensures r.Success? ==>
      var id := IntVal(Field(params, ProductIdParam).value);
      var coupon := r.value.0;
      var reply := r.value.1;
      && coupon.code == CodePrefix + StrToUpper(password)
      && coupon.discountType == "percent"
      && coupon.amount == 100
      && coupon.individualUse
      && coupon.productIds == [id]
      && coupon.usageLimit == 1
      && reply.code == coupon.code
      && reply.claimUrl.base == cartUrl
      && reply.claimUrl.args.Keys == {AddToCartArg, CouponCodeArg}
      && StringIntVal(reply.claimUrl.args[AddToCartArg]) == id
      && reply.claimUrl.args[CouponCodeArg] == coupon.code
  {
    var id := RequestedProductId(params);
    if id == 0 then Failure(NoProduct)
    else
      var code := CouponCode(password);
      var coupon := Coupon(code, "percent", 100, true, [id], 1, Description(id));
      Success((coupon, Generated(code, ClaimUrl(cartUrl, id, code))))
  }

  /** The id is only compared with 0: a negative id is accepted. */
  lemma NegativeIdIsAccepted(password: string, cartUrl: string)
    ensures GenerateOutcome(JObject(map[ProductIdParam := JInt(-7)]), password, cartUrl).Success?
  {
  }

  /** A missing id, and a string with no leading digits, are both rejected with `no_product`. */
  lemma MissingOrZeroIdIsRejected(password: string, cartUrl: string)
    ensures GenerateOutcome(JObject(map[]), password, cartUrl) == Failure(NoProduct)
    ensures GenerateOutcome(JObject(map[ProductIdParam := JString("abc")]), password, cartUrl) == Failure(NoProduct)
  {
    var params := JObject(map[ProductIdParam := JString("abc")]);
    assert Field(params, ProductIdParam) == Some(JString("abc"));
    assert StringIntVal("abc") == 0 by {
      assert SkipSpace("abc") == "abc";
      assert LeadingDigits("abc") == "";
    }
    assert RequestedProductId(params) == 0;
  }

  /** The Sender posts the id as a string: "42" restricts the coupon to product 42. */
  lemma StringIdIsParsed(password: string, cartUrl: string)
    ensures GenerateOutcome(JObject(map[ProductIdParam := JString("42")]), password, cartUrl).value.0.productIds == [42]
  {
    assert IntToString(42) == "42" by {
      assert NatToString(4) == "4";
    }
    IntValOfIntToString(42);
  }

  /** The generate endpoint as routed: the permission check runs first, then `api_generate_coupon`. */
  function GenerateEndpoint(settings: Settings, secretHeader: Option<string>, params: Json, password: string, cartUrl: string): (r: Result<(Coupon, Generated), RestError>)
    ensures !PermissionCheck(settings, secretHeader) ==> r == Failure(Forbidden)
    ensures r.Success? ==> secretHeader == Some(GetSecret(settings)) && r.value.0.productIds == [RequestedProductId(params)]
    ensures PermissionCheck(settings, secretHeader) ==> r == GenerateOutcome(params, password, cartUrl)
  {
    if !PermissionCheck(settings, secretHeader) then Failure(Forbidden)
    else GenerateOutcome(params, password, cartUrl)
  }

  /** The Receiver site: its settings and its coupon table. */
  class ReceiverSite {
    const settings: Settings
    var coupons: seq<Coupon>

    constructor (settings: Settings, coupons: seq<Coupon>)
      ensures this.settings == settings && this.coupons == coupons
    {
      this.settings := settings;
      this.coupons := coupons;
    }

    /** The coupon table and reply after a generate request, given the table before it. */
    ghost predicate Generates(before: seq<Coupon>, outcome: Result<(Coupon, Generated), RestError>, r: Result<Generated, RestError>)
      reads this
    {
      match outcome
      case Failure(e) => r == Failure(e) && coupons == before
      case Success(saved) => r == Success(saved.1) && coupons == before + [saved.0]
    }

    /**
     * `api_generate_coupon`: validates the id, fills in a blank coupon setter by
     * setter, saves it and builds the claim URL from the cart URL.
     */
    method GenerateCoupon(params: Json, password: string, cartUrl: string) returns (r: Result<Generated, RestError>)
      modifies this`coupons
      ensures Generates(old(coupons), GenerateOutcome(params, password, cartUrl), r)
    {
      var param := Field(params, ProductIdParam);
      var id := 0;
      if param.Some? {
        id := IntVal(param.value);
      }
      if id == 0 {
        return Failure(NoProduct);
      }

      var code := CodePrefix + StrToUpper(password);

      var coupon := BlankCoupon;
      coupon := coupon.(code := code);
      coupon := coupon.(discountType := "percent");
      coupon := coupon.(amount := 100);
      coupon := coupon.(individualUse := true);
      coupon := coupon.(productIds := [id]);
      coupon := coupon.(usageLimit := 1);
      coupon := coupon.(description := Description(id));
      coupons := coupons + [coupon];

      var claimUrl := WithQueryArgs(cartUrl, map[AddToCartArg := IntToString(id), CouponCodeArg := code]);
      assert claimUrl == ClaimUrl(cartUrl, id, code);
      r := Success(Generated(code, claimUrl));
    }

    /** A POST to `wc-xsr/v1/generate`: rejected before anything else unless the secret header matches. */
    method HandleGenerate(secretHeader: Option<string>, params: Json, password: string, cartUrl: string) returns (r: Result<Generated, RestError>)
      modifies this`coupons
      ensures Generates(old(coupons), GenerateEndpoint(settings, secretHeader, params, password, cartUrl), r)
    {
      if !PermissionCheck(settings, secretHeader) {
        return Failure(Forbidden);
      }
      r := GenerateCoupon(params, password, cartUrl);
    }
  }
}
