/** Prices, fees and the split of a ticket's gross amount. Amounts are whole micro-USDC. */
module Money {
  import opened Common

  const MIN_TICKET_PRICE: nat := 5_000_000
  const PLATFORM_DIVISOR: nat := 20
  const MAX_VAT_RATE_BPS: nat := 2_700
  const SOURCE_MAX_BYTES: nat := 20_000_000_000
  const MIN_UPLOAD_FEE: nat := 500_000
  const SPONSORED_UPLOAD_FEE: nat := 100_000
  const YOCTO_PER_NEAR: nat := 1_000_000_000_000_000_000_000_000

  datatype Split = Split(vat: nat, platform: nat, creator: nat)

  /** `split_ticket_amount`: the attested VAT is only bounded, and each product must fit 128 bits. */
  function SplitTicket(gross: nat, vat: nat): Option<Split> {
    if gross < MIN_TICKET_PRICE then None
    else if vat * (10_000 + MAX_VAT_RATE_BPS) > U128_MAX || gross * MAX_VAT_RATE_BPS > U128_MAX then None
    else if vat * (10_000 + MAX_VAT_RATE_BPS) > gross * MAX_VAT_RATE_BPS then None
    else
      var net := gross - vat;
      Some(Split(vat, net / PLATFORM_DIVISOR, net - net / PLATFORM_DIVISOR))
  }

  /**
   An accepted split hands out the gross amount to the last unit, takes VAT of at most 27/127,
   and gives the creator at least nineteen times the platform's share but less than one
   rounding step (20 units) more.
   */
  lemma SplitIsExact(gross: nat, vat: nat)
    requires SplitTicket(gross, vat).Some?
    ensures var s := SplitTicket(gross, vat).value;
            && s.vat == vat
            && s.vat + s.platform + s.creator == gross
            && 127 * s.vat <= 27 * gross
            && 19 * s.platform <= s.creator < 19 * s.platform + 20
  {
    var net := gross - vat;
    assert net == 20 * (net / 20) + net % 20;
  }

  /** Exactly which attestations are accepted, for amounts whose products fit 128 bits. */
  lemma SplitAccepts(gross: nat, vat: nat)
    requires gross * 12_700 <= U128_MAX
    ensures SplitTicket(gross, vat).Some? <==> gross >= MIN_TICKET_PRICE && 127 * vat <= 27 * gross
  {
  }

  /** Rounded-up division as the contract writes it. */
  function DivCeil(n: nat, d: nat): nat
    requires d > 0
  {
    n / d + (if n % d != 0 then 1 else 0)
  }

  /** `upload_fee_usdc`; the product of an accepted size always fits. */
  function UploadFee(sourceBytes: nat): Option<nat> {
    if 1 <= sourceBytes <= SOURCE_MAX_BYTES then
      var fee := DivCeil(sourceBytes * 3, 10_000);
      Some(if fee < MIN_UPLOAD_FEE then MIN_UPLOAD_FEE else fee)
    else None
  }

  /** The same fee as the web client computes it. */
  function ClientUploadFee(sourceBytes: nat): nat {
    var byteFee := (sourceBytes * 3 + 9_999) / 10_000;
    if byteFee < 500_000 then 500_000 else byteFee
  }

  /** `create_paid_job_near` converts the USD fee at the quoted price of one NEAR. */
  function NearFee(feeUsdMicro: nat, nearUsdMicro: nat): nat
    requires nearUsdMicro > 0
  {
    DivCeil(feeUsdMicro * YOCTO_PER_NEAR, nearUsdMicro)
  }

  lemma {:induction false} ProductsAreOrdered(a: nat, b: nat, d: nat)
    requires a <= b
    ensures a * d <= b * d
    decreases b
  {
    if a < b {
      ProductsAreOrdered(a, b - 1, d);
      assert b * d == (b - 1) * d + d;
    }
  }

  /** A quotient is fixed by any remainder below the divisor. */
  lemma QuotientUnique(n: nat, d: nat, q: nat, r: nat)
    requires n == q * d + r && r < d
    ensures n / d == q
  {
    var p := n / d;
    assert p * d <= n < p * d + d;
    assert (p + 1) * d == p * d + d && (q + 1) * d == q * d + d;
    if p < q {
      ProductsAreOrdered(p + 1, q, d);
    } else if q < p {
      ProductsAreOrdered(q + 1, p, d);
    }
  }

  /** Rounding up gives the least quotient whose product covers the numerator, in either written form. */
  lemma DivCeilIsLeast(n: nat, d: nat)
    requires d > 0
    ensures DivCeil(n, d) * d >= n
    ensures DivCeil(n, d) == (n + d - 1) / d
    ensures forall q: nat {:trigger q * d} :: q * d >= n ==> q >= DivCeil(n, d)
  {
    var q, r := n / d, n % d;
    assert n == q * d + r;
    assert (q + 1) * d == q * d + d;
    QuotientUnique(n + d - 1, d, DivCeil(n, d), if r == 0 then d - 1 else r - 1);
    forall c: nat {:trigger c * d} | c * d >= n
      ensures c >= DivCeil(n, d)
    {
      assert (c + 1) * d == c * d + d;
      if c < q {
        ProductsAreOrdered(c + 1, q, d);
      }
    }
  }

  /**
   The upload fee is the least whole amount that covers 3/10000 of the bytes and the floor,
   the two languages compute the same number, and more bytes never cost less.
   */
  lemma UploadFeeIsLeast(sourceBytes: nat, fewer: nat)
    requires 1 <= fewer <= sourceBytes <= SOURCE_MAX_BYTES
    ensures var fee := UploadFee(sourceBytes);
            && fee.Some?
            && fee.value >= MIN_UPLOAD_FEE
            && fee.value * 10_000 >= sourceBytes * 3
            && (forall f: nat {:trigger f * 10_000} :: f >= MIN_UPLOAD_FEE && f * 10_000 >= sourceBytes * 3 ==> f >= fee.value)
            && fee.value == ClientUploadFee(sourceBytes)
            && UploadFee(fewer).Some? && UploadFee(fewer).value <= fee.value
  {
    DivCeilIsLeast(sourceBytes * 3, 10_000);
    DivCeilIsLeast(fewer * 3, 10_000);
  }

  /** The quoted NEAR fee covers the USD fee at the quoted price, and no smaller amount does. */
  lemma NearFeeIsLeast(feeUsdMicro: nat, nearUsdMicro: nat)
    requires nearUsdMicro > 0
    ensures NearFee(feeUsdMicro, nearUsdMicro) * nearUsdMicro >= feeUsdMicro * YOCTO_PER_NEAR
    ensures forall f: nat {:trigger f * nearUsdMicro} ::
              f * nearUsdMicro >= feeUsdMicro * YOCTO_PER_NEAR ==> f >= NearFee(feeUsdMicro, nearUsdMicro)
  {
    DivCeilIsLeast(feeUsdMicro * YOCTO_PER_NEAR, nearUsdMicro);
  }
}
