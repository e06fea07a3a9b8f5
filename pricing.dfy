/**
 * Country-indexed price tables of the catalogue and the lookups used by the cart,
 * the product pages and the kit pages. All prices are whole amounts.
 */
module Pricing {
  import opened Wrappers

  datatype Country = NG | CIV | OTHER

  /** One product's prices: the NG base in FCFA, its informative NGN equivalent,
      the Ivory Coast price and the price for every other country. */
  datatype ProductPricing = ProductPricing(ngPrimaryFcfa: int, ngInfoNgn: int, civFcfa: int, otherFcfa: int)

  datatype KitPricing = KitPricing(ng: int, civ: int, other: int)

  const PRICING: map<string, ProductPricing> := map[
    "completeDetox" := ProductPricing(26500, 71550, 25000, 26500),
    "ovita"         := ProductPricing(26500, 71550, 25000, 26500),
    "vbh"           := ProductPricing(23500, 63450, 22000, 23500),
    "antica"        := ProductPricing(36500, 98550, 35000, 36500),
    "cafe"          := ProductPricing(21500, 58050, 20000, 21500),
    "hotChoco"      := ProductPricing(21500, 58050, 20000, 21500),
    "gelIntime"     := ProductPricing(13500, 36450, 12000, 13500),
    "pateDent"      := ProductPricing(6500, 17550, 5000, 6500),
    "savon"         := ProductPricing(8000, 21600, 6500, 8000),
    "teraFm"        := ProductPricing(750000, 2025000, 750000, 750000),
    "tapisP"        := ProductPricing(150000, 405000, 120000, 150000)
  ]

  /** `Object.keys(PRICING)`: the product keys in declaration order. */
  const ProductKeys: seq<string> := [
    "completeDetox", "ovita", "vbh", "antica", "cafe", "hotChoco",
    "gelIntime", "pateDent", "savon", "teraFm", "tapisP"
  ]

  /** The exchange rate 2.7 NGN per FCFA, as the fraction 27/10. */
  const NgnPerFcfaNumerator: int := 27
  const NgnPerFcfaDenominator: int := 10

  const KIT_PRICING: map<string, KitPricing> := map[
    "starter"      := KitPricing(70000, 60000, 70000),
    "entrepreneur" := KitPricing(140000, 120000, 140000),
    "investor"     := KitPricing(280000, 240000, 280000),
    "business"     := KitPricing(500000, 480000, 500000),
    "king"         := KitPricing(990000, 960000, 990000)
  ]

  /** An amount in a currency. How it is rendered (`toLocaleString`) is not modelled:
      `Fcfa(a)` stands for `formatFCFA(a)`, `Ngn(a)` for `formatNGN(a)`. */
  datatype Money = Fcfa(amount: int) | Ngn(amount: int)

  /** A displayed price text: the dash for an unknown product, a formatted amount,
      or a formatted amount in parentheses. */
  datatype PriceText = Dash | Formatted(money: Money) | Parenthesised(money: Money)

  datatype DisplayPrice = DisplayPrice(primary: PriceText, secondary: Option<PriceText>)

  /** `getRawPrice`: the unit price charged in the cart, 0 for an unknown product. */
  function GetRawPrice(productKey: string, country: Country): (r: int)
    ensures productKey !in PRICING ==> r == 0
  {
    if productKey !in PRICING then 0
    else
      var p := PRICING[productKey];
      match country
      case NG => p.ngInfoNgn
      case CIV => p.civFcfa
      case OTHER => p.otherFcfa
  }

  /** `getProductPrice`: the price shown for a product. */
  function GetProductPrice(productKey: string, country: Country): (r: DisplayPrice)
    ensures productKey !in PRICING ==> r == DisplayPrice(Dash, None)
    ensures r.secondary.Some? <==> productKey in PRICING && country == NG
  {
    if productKey !in PRICING then DisplayPrice(Dash, None)
    else
      var p := PRICING[productKey];
      match country
      case NG => DisplayPrice(Formatted(Ngn(p.ngInfoNgn)), Some(Parenthesised(Fcfa(p.ngPrimaryFcfa))))
      case CIV => DisplayPrice(Formatted(Fcfa(p.civFcfa)), None)
      case OTHER => DisplayPrice(Formatted(Fcfa(p.otherFcfa)), None)
  }

  /** `getKitPrice`: the kit's price in the country's column, 0 for an unknown kit. */
  function GetKitPrice(kitKey: string, country: Country): (r: int)
    ensures kitKey !in KIT_PRICING ==> r == 0
  {
    if kitKey !in KIT_PRICING then 0
    else
      var k := KIT_PRICING[kitKey];
      match country
      case NG => k.ng
      case CIV => k.civ
      case OTHER => k.other
  }

  /** `formatKitPrice`: the kit's price, formatted in NGN exactly for Nigeria. */
  function FormatKitPrice(kitKey: string, country: Country): (r: Money)
    ensures r.Ngn? <==> country == NG
    ensures r.amount == GetKitPrice(kitKey, country)
  {
    var price := GetKitPrice(kitKey, country);
    if country == NG then Ngn(price) else Fcfa(price)
  }

  /** The amount shown first for a known product is the amount charged in the cart,
      in NGN for Nigeria and in FCFA elsewhere. */
  lemma DisplayedPriceIsRawPrice(productKey: string, country: Country)
    requires productKey in PRICING
    ensures GetProductPrice(productKey, country).primary
         == Formatted(if country == NG then Ngn(GetRawPrice(productKey, country))
                      else Fcfa(GetRawPrice(productKey, country)))
  {
  }

  /** For Nigeria the parenthesised FCFA reference shown beside the naira price is the
      FCFA price that every other country pays, and the naira price is that reference
      converted at 2.7. */
  lemma NigerianReferenceIsBasePrice(productKey: string)
    requires productKey in PRICING
    ensures GetProductPrice(productKey, NG).secondary
         == Some(Parenthesised(Fcfa(GetRawPrice(productKey, OTHER))))
    ensures GetProductPrice(productKey, NG).secondary.value.money.amount * NgnPerFcfaNumerator
         == GetProductPrice(productKey, NG).primary.money.amount * NgnPerFcfaDenominator
  {
    ProductTableInvariants(productKey);
  }

  /** `Object.keys(PRICING)` lists every table key once. */
  lemma ProductKeysAreTableKeys()
    ensures forall k :: k in PRICING <==> k in ProductKeys
    ensures forall i, j :: 0 <= i < j < |ProductKeys| ==> ProductKeys[i] != ProductKeys[j]
  {
  }

  /** Data invariants of the product table: "OTHER: same as NG base", and the NGN figure
      is exactly the NG base times 2.7. */
  lemma ProductTableInvariants(productKey: string)
    requires productKey in PRICING
    ensures PRICING[productKey].otherFcfa == PRICING[productKey].ngPrimaryFcfa
    ensures PRICING[productKey].ngInfoNgn * NgnPerFcfaDenominator
         == PRICING[productKey].ngPrimaryFcfa * NgnPerFcfaNumerator
    ensures 0 < PRICING[productKey].civFcfa <= PRICING[productKey].ngPrimaryFcfa
  {
  }

  /** The cart price for Nigeria is the cart price for other countries converted at 2.7. */
  lemma RawPriceConversion(productKey: string)
    ensures GetRawPrice(productKey, NG) * NgnPerFcfaDenominator
         == GetRawPrice(productKey, OTHER) * NgnPerFcfaNumerator
  {
    if productKey in PRICING {
      ProductTableInvariants(productKey);
    }
  }

  /** Data invariant of the kit table: the Nigeria and other-country columns agree, and
      the Ivory Coast price is never higher. */
  lemma KitTableInvariants(kitKey: string)
    requires kitKey in KIT_PRICING
    ensures KIT_PRICING[kitKey].ng == KIT_PRICING[kitKey].other
    ensures 0 < KIT_PRICING[kitKey].civ <= KIT_PRICING[kitKey].ng
  {
  }

  lemma KitPriceNgEqualsOther(kitKey: string)
    ensures GetKitPrice(kitKey, NG) == GetKitPrice(kitKey, OTHER)
  {
    if kitKey in KIT_PRICING {
      KitTableInvariants(kitKey);
    }
  }
}
