/**
 * The checkout sidebar (src/components/CheckoutSidebar.tsx): the coupon table, the discount
 * and final-amount arithmetic, and the form whose fields the sidebar edits and submits.
 */
module Checkout {
  import opened Wrappers
  import opened Types
  import opened Text
  import Catalog

  // The coupon table

  const Welcome10: CouponCode := CouponCode("WELCOME10", 10, Percentage, true)
  const Save500: CouponCode := CouponCode("SAVE500", 500, Fixed, true)
  const NewUser: CouponCode := CouponCode("NEWUSER", 15, Percentage, true)

  /** `validCoupons[key]`: the demo table of three coupons, keyed by their own code. */
  function LookupCoupon(key: string): (r: Option<CouponCode>)
    ensures r.Some? <==> key in {"WELCOME10", "SAVE500", "NEWUSER"}
    ensures r.Some? ==> r.value.code == key && r.value.isValid
  {
    if key == "WELCOME10" then Some(Welcome10)
    else if key == "SAVE500" then Some(Save500)
    else if key == "NEWUSER" then Some(NewUser)
    else None
  }

  /** A coupon found in the table is found again under its own code. */
  lemma LookupIsTableEntry(key: string)
    ensures LookupCoupon(key).Some? ==> LookupCoupon(LookupCoupon(key).value.code) == LookupCoupon(key)
  {
  }

  /** A coupon whose amount makes sense: a percentage between 0 and 100, or a non-negative rupee amount. */
  predicate WellFormedCoupon(c: CouponCode) {
    match c.kind
    case Percentage => 0 <= c.discount <= 100
    case Fixed => 0 <= c.discount
  }

  /** Every coupon the table hands out is well formed, and it is a percentage exactly when its amount is 10 or 15. */
  lemma TableCouponsWellFormed(key: string)
    ensures LookupCoupon(key).Some? ==> WellFormedCoupon(LookupCoupon(key).value)
    ensures LookupCoupon(key).Some? ==>
      (LookupCoupon(key).value.kind == Percentage <==> LookupCoupon(key).value.discount in {10, 15})
  {
  }

  /** The three entries of the table, field by field. */
  lemma CouponTable()
    ensures LookupCoupon("WELCOME10") == Some(CouponCode("WELCOME10", 10, Percentage, true))
    ensures LookupCoupon("SAVE500") == Some(CouponCode("SAVE500", 500, Fixed, true))
    ensures LookupCoupon("NEWUSER") == Some(CouponCode("NEWUSER", 15, Percentage, true))
  {
  }

  // Discount and final amount

  /** `(price * pct) / 100`, unrounded: times 100 it is `price * pct`, and a percentage up to 100 of a price lies between 0 and the price. */
  function PercentOf(price: int, pct: int): (d: real)
    ensures d * 100.0 == price as real * pct as real
    ensures 0 <= price && 0 <= pct <= 100 ==> 0.0 <= d <= price as real
  {
    assert 0 <= price && 0 <= pct <= 100 ==> price as real * pct as real <= price as real * 100.0;
    (price as real * pct as real) / 100.0
  }

  /**
   * `calculateDiscount()`: nothing without a coupon or a service; a percentage coupon takes
   * exactly `price * pct / 100`, unrounded; a fixed coupon takes its amount, capped at the price.
   */
  function Discount(service: Option<Service>, coupon: Option<CouponCode>): (d: real)
    ensures service.None? || coupon.None? ==> d == 0.0
    ensures service.Some? && coupon.Some? && coupon.value.kind == Percentage ==>
      d * 100.0 == service.value.price as real * coupon.value.discount as real
    ensures service.Some? && coupon.Some? && coupon.value.kind == Fixed ==>
      d <= coupon.value.discount as real && d <= service.value.price as real &&
      (d == coupon.value.discount as real || d == service.value.price as real)
    ensures service.Some? && coupon.Some? && 0 <= service.value.price && WellFormedCoupon(coupon.value) ==>
      0.0 <= d <= service.value.price as real
  {
    if coupon.None? || service.None? then 0.0
    else
      var price, amount := service.value.price, coupon.value.discount;
      match coupon.value.kind
      case Percentage => PercentOf(price, amount)
      case Fixed => if amount <= price then amount as real else price as real
  }

  /** `getFinalAmount()`: nothing without a service, otherwise the price less the discount. */
  function FinalAmount(service: Option<Service>, coupon: Option<CouponCode>): (f: real)
    ensures service.None? ==> f == 0.0
    ensures service.Some? ==> f + Discount(service, coupon) == service.value.price as real
    ensures service.Some? && coupon.None? ==> f == service.value.price as real
    ensures service.Some? && coupon.Some? && 0 <= service.value.price && WellFormedCoupon(coupon.value) ==>
      0.0 <= f <= service.value.price as real
  {
    if service.None? then 0.0 else service.value.price as real - Discount(service, coupon)
  }

  /** For every coupon in the table and every non-negative price, the amount due lies between 0 and the price. */
  lemma TableFinalAmountWithinPrice(service: Service, key: string)
    requires 0 <= service.price
    ensures 0.0 <= FinalAmount(Some(service), LookupCoupon(key)) <= service.price as real
  {
    TableCouponsWellFormed(key);
  }

  /** Every catalog entry with every table coupon costs between 0 and its list price. */
  lemma CatalogFinalAmountWithinPrice(service: Service, key: string)
    requires service in Catalog.Services
    ensures 0.0 <= FinalAmount(Some(service), LookupCoupon(key)) <= service.price as real
  {
    Catalog.CatalogPricesPositive();
    TableFinalAmountWithinPrice(service, key);
  }

  lemma FloorOfWhole(k: int)
    ensures (k as real).Floor == k
  {
  }

  /** A table discount on a price that is a multiple of 5 rupees is a whole number of quarter rupees. */
  lemma QuarterRupees(service: Service, key: string)
    requires 0 <= service.price && service.price % 5 == 0
    ensures (Discount(Some(service), LookupCoupon(key)) * 4.0).Floor as real
         == Discount(Some(service), LookupCoupon(key)) * 4.0
  {
    var m := service.price / 5;
    var d := Discount(Some(service), LookupCoupon(key));
    var p := service.price as real;
    assert p == 5.0 * m as real;
    if key == "WELCOME10" {
      assert d * 100.0 == p * 10.0;
      FloorOfWhole(2 * m);
    } else if key == "NEWUSER" {
      assert d * 100.0 == p * 15.0;
      FloorOfWhole(3 * m);
    } else if key == "SAVE500" {
      FloorOfWhole(2000);
      FloorOfWhole(4 * service.price);
    } else {
      FloorOfWhole(0);
    }
  }

  /**
   * Catalog prices are multiples of 5 rupees, so every table discount on a catalog entry is a
   * whole number of quarter rupees: a binary floating-point number holds it exactly.
   */
  lemma CatalogDiscountInQuarterRupees(service: Service, key: string)
    requires service in Catalog.Services
    ensures (Discount(Some(service), LookupCoupon(key)) * 4.0).Floor as real
         == Discount(Some(service), LookupCoupon(key)) * 4.0
  {
    Catalog.CatalogPricesPositive();
    QuarterRupees(service, key);
  }

  /** The worked figures: 10% off 25000, and 500 off 700 and off 300. */
  lemma CouponExamples(a: Service, b: Service, c: Service)
    requires a.price == 25000 && b.price == 700 && c.price == 300
    ensures Discount(Some(a), LookupCoupon("WELCOME10")) == 2500.0
    ensures FinalAmount(Some(a), LookupCoupon("WELCOME10")) == 22500.0
    ensures FinalAmount(Some(b), LookupCoupon("SAVE500")) == 200.0
    ensures FinalAmount(Some(c), LookupCoupon("SAVE500")) == 0.0
  {
  }

  /** The smallest pack, 15 rupees, with 10% off costs 13.5 rupees: the discount is not rounded. */
  lemma SmallestPackWithWelcome10()
    ensures Catalog.Services[0].price == 15
    ensures Discount(Some(Catalog.Services[0]), LookupCoupon("WELCOME10")) == 1.5
    ensures FinalAmount(Some(Catalog.Services[0]), LookupCoupon("WELCOME10")) == 13.5
  {
  }

  // Coupon entry

  /**
   * The applied coupon after validating the typed code: a blank entry changes nothing; otherwise
   * the uppercased entry, untrimmed, is looked up, and only a hit replaces the applied coupon.
   */
  function ApplyCoupon(applied: Option<CouponCode>, entry: string): (r: Option<CouponCode>)
    ensures Trim(entry) == [] ==> r == applied
    ensures r != applied ==> r.Some? && r.value.code == ToUpper(entry) && LookupCoupon(r.value.code) == r
    ensures LookupCoupon(ToUpper(entry)).None? ==> r == applied
  {
    if Trim(entry) == [] then applied
    else match LookupCoupon(ToUpper(entry))
      case Some(c) => Some(c)
      case None => applied
  }

  /** The outcome of validating a coupon entry, standing for the toast the sidebar shows. */
  datatype CouponOutcome = Ignored | Applied(coupon: CouponCode) | Rejected

  /** Which toast validation ends with: none for a blank entry, "Coupon Applied!" on a hit, "Invalid Coupon" otherwise. */
  function ValidationOutcome(entry: string): CouponOutcome {
    if Trim(entry) == [] then Ignored
    else match LookupCoupon(ToUpper(entry))
      case Some(c) => Applied(c)
      case None => Rejected
  }

  /** The toast agrees with the coupon state: applied means that coupon is now the applied one, otherwise it is unchanged. */
  lemma ValidationOutcomeAgrees(applied: Option<CouponCode>, entry: string)
    ensures ValidationOutcome(entry).Ignored? <==> Trim(entry) == []
    ensures ValidationOutcome(entry).Applied? ==> ApplyCoupon(applied, entry) == Some(ValidationOutcome(entry).coupon)
    ensures ValidationOutcome(entry).Applied? ==> ValidationOutcome(entry).coupon.code == ToUpper(entry)
    ensures !ValidationOutcome(entry).Applied? ==> ApplyCoupon(applied, entry) == applied
    ensures ValidationOutcome(entry).Applied? ==>
      LookupCoupon(ValidationOutcome(entry).coupon.code) == Some(ValidationOutcome(entry).coupon)
  {
    LookupIsTableEntry(ToUpper(entry));
  }

  /** Entering the same code a second time leaves the applied coupon as the first time left it. */
  lemma ApplyCouponIdempotent(applied: Option<CouponCode>, entry: string)
    ensures ApplyCoupon(ApplyCoupon(applied, entry), entry) == ApplyCoupon(applied, entry)
  {
  }

  /** A non-blank entry that names a table coupon, in any ASCII letter case, applies that coupon whatever was applied before. */
  lemma ApplyCouponHit(applied: Option<CouponCode>, entry: string)
    requires Trim(entry) != [] && LookupCoupon(ToUpper(entry)).Some?
    ensures ApplyCoupon(applied, entry) == LookupCoupon(ToUpper(entry))
  {
  }

  lemma UpperWelcome()
    ensures ToUpper("welcome10") == "WELCOME10"
  {
    var upper, entry := ToUpper("welcome10"), "welcome10";
    assert upper[0] == UpperChar(entry[0]) == 'W';
    assert upper[1] == UpperChar(entry[1]) == 'E';
    assert upper[2] == UpperChar(entry[2]) == 'L';
    assert upper[3] == UpperChar(entry[3]) == 'C';
    assert upper[4] == UpperChar(entry[4]) == 'O';
    assert upper[5] == UpperChar(entry[5]) == 'M';
    assert upper[6] == UpperChar(entry[6]) == 'E';
    assert upper[7] == UpperChar(entry[7]) == '1';
    assert upper[8] == UpperChar(entry[8]) == '0';
  }

  lemma TrimWelcome()
    ensures Trim("welcome10") == "welcome10"
  {
    assert !IsWhitespace('w') && !IsWhitespace('0');
  }

  /** An entry in lower case finds its coupon. */
  lemma ApplyCouponLowerCase()
    ensures ApplyCoupon(None, "welcome10") == Some(Welcome10)
  {
    UpperWelcome();
    TrimWelcome();
  }

  lemma TrimPadded()
    ensures Trim(" SAVE500") == "SAVE500"
  {
    assert IsWhitespace(' ') && !IsWhitespace('S') && !IsWhitespace('0');
    assert " SAVE500"[1..] == "SAVE500";
  }

  lemma UpperPadded()
    ensures LookupCoupon(ToUpper(" SAVE500")).None?
  {
    assert ToUpper(" SAVE500")[0] == ' ';
  }

  /** Surrounding spaces are not trimmed before the lookup, so a padded code is rejected. */
  lemma ApplyCouponPadded()
    ensures ApplyCoupon(None, " SAVE500") == None
  {
    TrimPadded();
    UpperPadded();
  }

  /** A blank entry keeps whatever coupon is applied. */
  lemma ApplyCouponBlank()
    ensures ApplyCoupon(Some(NewUser), "   ") == Some(NewUser)
  {
    assert TrimStart("   ") == [];
  }

  // Submission

  /** What the sidebar hands on when the form is complete. */
  datatype OrderPayload = OrderPayload(
    gameId: string,
    server: string,
    customerDetails: CustomerDetails,
    service: Service,
    finalAmount: real,
    couponCode: Option<string>)

  /** The outcome of submitting: one of the two refusals, or the payload. */
  datatype Submission = NoServiceSelected | MissingInformation | Proceed(payload: OrderPayload)

  /** The code of the applied coupon, if any (`appliedCoupon?.code`). */
  function CodeOf(coupon: Option<CouponCode>): (r: Option<string>)
    ensures r.Some? <==> coupon.Some?
    ensures r.Some? ==> r.value == coupon.value.code
  {
    match coupon
    case None => None
    case Some(c) => Some(c.code)
  }

  /** The sidebar's form state. */
  class CheckoutForm {
    var gameId: string
    var server: string
    var customerDetails: CustomerDetails
    var couponCode: string
    var appliedCoupon: Option<CouponCode>
    var isValidatingCoupon: bool

    /** The applied coupon, when there is one, is an entry of the coupon table. */
    ghost predicate Valid()
      reads this`appliedCoupon
    {
      appliedCoupon.Some? ==> LookupCoupon(appliedCoupon.value.code) == appliedCoupon
    }

    /** An empty form with no coupon applied. */
    constructor()
      ensures Valid()
      ensures gameId == "" && server == "" && couponCode == ""
      ensures customerDetails == CustomerDetails("", "", "", Some(""))
      ensures appliedCoupon.None? && !isValidatingCoupon
    {
      gameId := "";
      server := "";
      customerDetails := CustomerDetails("", "", "", Some(""));
      couponCode := "";
      appliedCoupon := None;
      isValidatingCoupon := false;
    }

    // The inputs' change handlers: each sets one field, or one field of the customer details.

    method SetGameId(value: string)
      modifies this`gameId
      ensures gameId == value
    {
      gameId := value;
    }

    method SetServer(value: string)
      modifies this`server
      ensures server == value
    {
      server := value;
    }

    method SetPhone(value: string)
      modifies this`customerDetails
      ensures customerDetails == old(customerDetails).(phone := value)
    {
      customerDetails := customerDetails.(phone := value);
    }

    method SetCustomerName(value: string)
      modifies this`customerDetails
      ensures customerDetails == old(customerDetails).(name := value)
    {
      customerDetails := customerDetails.(name := value);
    }

    method SetEmail(value: string)
      modifies this`customerDetails
      ensures customerDetails == old(customerDetails).(email := value)
    {
      customerDetails := customerDetails.(email := value);
    }

    method SetAdditionalInfo(value: string)
      modifies this`customerDetails
      ensures customerDetails == old(customerDetails).(additionalInfo := Some(value))
    {
      customerDetails := customerDetails.(additionalInfo := Some(value));
    }

    method SetCouponCode(value: string)
      modifies this`couponCode
      ensures couponCode == value
    {
      couponCode := value;
    }

    /**
     * `validateCoupon()`: a blank entry is ignored and nothing changes; otherwise the applied
     * coupon becomes `ApplyCoupon` of the entry and the validating flag ends cleared.
     */
    method ValidateCoupon() returns (outcome: CouponOutcome)
      requires Valid()
      modifies this`appliedCoupon, this`isValidatingCoupon
      ensures Valid()
      ensures appliedCoupon == ApplyCoupon(old(appliedCoupon), couponCode)
      ensures outcome == ValidationOutcome(couponCode)
      ensures outcome.Ignored? ==> isValidatingCoupon == old(isValidatingCoupon)
      ensures !outcome.Ignored? ==> !isValidatingCoupon
    {
      var entry := couponCode;
      ValidationOutcomeAgrees(appliedCoupon, entry);
      outcome := ValidationOutcome(entry);
      if outcome.Ignored? {
        return;
      }
      isValidatingCoupon := true;
      if outcome.Applied? {
        appliedCoupon := Some(outcome.coupon);
      }
      isValidatingCoupon := false;
    }

    /** `removeCoupon()`: no coupon applied and an empty entry. */
    method RemoveCoupon()
      modifies this`appliedCoupon, this`couponCode
      ensures Valid()
      ensures appliedCoupon.None? && couponCode == ""
    {
      appliedCoupon := None;
      couponCode := "";
    }

    /**
     * `handleSubmit()`: refused without a service, refused when the game id, server or phone
     * is empty, and otherwise exactly one payload carrying the amount due and the coupon's code.
     */
    method HandleSubmit(selected: Option<Service>) returns (r: Submission)
      ensures r.NoServiceSelected? <==> selected.None?
      ensures r.MissingInformation? <==> selected.Some? && (gameId == "" || server == "" || customerDetails.phone == "")
      ensures r.Proceed? <==> selected.Some? && gameId != "" && server != "" && customerDetails.phone != ""
      ensures r.Proceed? ==> r.payload.service == selected.value
      ensures r.Proceed? ==> r.payload.gameId == gameId && r.payload.server == server
      ensures r.Proceed? ==> r.payload.customerDetails == customerDetails
      ensures r.Proceed? ==> r.payload.finalAmount == FinalAmount(selected, appliedCoupon)
      ensures r.Proceed? ==> r.payload.couponCode == CodeOf(appliedCoupon)
    {
      if selected.None? {
        return NoServiceSelected;
      }
      if gameId == "" || server == "" || customerDetails.phone == "" {
        return MissingInformation;
      }
      r := Proceed(OrderPayload(gameId, server, customerDetails, selected.value,
                                FinalAmount(selected, appliedCoupon), CodeOf(appliedCoupon)));
    }
  }
}
