/**
 * The tax engine proper: `calculate` turns the user's answers into the lines
 * of the Slovak personal income tax return (type B) for 2023. Each derived
 * line of the source is a getter reading other getters; here each line with
 * logic of its own is a function of the lines it reads, and `Calculate`
 * evaluates them in dependency order into one `TaxForm` record.
 */
module Calculation {
  import opened Wrappers
  import opened Money
  import opened Children
  import opened ChildTaxBonus

  const NezdanitelnaCastZakladu: real := 4922.82
  /** The threshold above which the 25% rate and the reduced allowances apply. */
  const Konstanta: real := 41445.42
  const PausalneVydavkyMax: real := 20000.0
  const DanZPrijmuZnizenaSadzbaLimit: real := 49790.0
  const DanZPrijmuSadzbaZnizena: real := 0.15
  const DanZPrijmuSadzba: real := 0.19
  const DanZPrijmuSadzbaZvysena: real := 0.25
  const MaxZakladDane: real := 21754.18
  const PartnerMaxOdpocet: real := 4500.86
  const ZivotneMinimumNasobok: real := 10361.36
  const SpodnaSadzbaPrePreddavky: real := 5000.0
  const VrchnaSadzbaPrePreddavky: real := 16600.0
  const PocetKvartalov: real := 4.0
  const PocetMesiacov: real := 12.0
  const ZvyhodnenieNaPartnera: real := 14862.228
  const Min2PercentCalculatedDonation: real := 3.0
  /** The pension-savings deduction is capped at this amount (`Decimal.min(180, …)`). */
  const DochodokMax: real := 180.0

  /** The user's answers the tax lines read; amounts are still the strings the user typed. */
  datatype UserInput = UserInput(
    t1r10_prijmy: string,
    priloha3_r11_socialne: string,
    priloha3_r13_zdravotne: string,
    platil_prispevky_na_dochodok: bool,
    zaplatene_prispevky_na_dochodok: string,
    r032_uplatnujem_na_partnera: bool,
    r032_partner_vlastne_prijmy: string,
    r032_partner_pocet_mesiacov: string,
    hasChildren: bool,
    children: seq<ChildInput>,
    uhrnPrijmovOdVsetkychZamestnavatelov: string,
    uhrnPovinnehoPoistnehoNaSocialnePoistenie: string,
    uhrnPovinnehoPoistnehoNaZdravotnePoistenie: string,
    udajeODanovomBonuseNaDieta: string,
    uhrnPreddavkovNaDan: string,
    zaplatenePreddavky: string,
    splnam3per: bool,
    XIIoddiel_uplatnujem2percenta: bool,
    r142_ico: string,
    r142_obchMeno: string,
    XIIoddiel_suhlasZaslUdaje: bool)

  /**
   * The helpers the engine imports and whose code is not part of this model:
   * the number parser, the age of a child from its birth number at a year and
   * month, and the partner-bonus form validator.
   */
  datatype Helpers = Helpers(
    parseInputNumber: string -> real,
    ageAt: (string, int, int) -> int,
    validatePartnerBonusForm: UserInput -> bool)

  /** The organisation that receives the 2% / 3% share (`r152`). */
  datatype NgoRecipient = NgoRecipient(ico: string, obchMeno: string, suhlasZaslUdaje: bool)

  // ---------------------------------------------------------------- income

  /**
   * `t1r10_vydavky`: flat-rate expenses, 60% of the income capped at 20000,
   * plus the insurance paid, but never more than the income itself.
   */
  function FlatExpenses(prijmy: real, poistne: real): (r: real)
    ensures r <= prijmy
    ensures r <= Min(prijmy * 0.6, PausalneVydavkyMax) + poistne
    ensures r == prijmy || r == Min(prijmy * 0.6, PausalneVydavkyMax) + poistne
    ensures 0.0 <= prijmy && 0.0 <= poistne ==> 0.0 <= r
  {
    Min(Min(prijmy * 0.6, PausalneVydavkyMax) + poistne, prijmy)
  }

  /** `r041`: the business tax base, the absolute difference of income (`r039`) and expenses (`r040`). */
  function R041(r039: real, r040: real): (r: real)
    ensures 0.0 <= r
    ensures r == r039 - r040 || r == r040 - r039
  {
    Abs(r039 - r040)
  }

  /** With the flat-rate expenses, the business base is simply income minus expenses. */
  lemma BusinessBaseIsProfit(prijmy: real, poistne: real)
    ensures R041(prijmy, FlatExpenses(prijmy, poistne)) == prijmy - FlatExpenses(prijmy, poistne)
  {
  }

  // ------------------------------------------------------- non-taxable parts

  /**
   * `r073`: the taxpayer's own non-taxable part. Nothing for a zero base or
   * a base at or above `Konstanta`; the full 4922.82 up to 21754.18; in
   * between, 10361.36 less a quarter of the base, both rounded to cents.
   */
  function R073(r072: real): (r: real)
    ensures 0.0 <= r <= NezdanitelnaCastZakladu
    ensures WholeCents(r)
    ensures r072 == 0.0 || Konstanta <= r072 ==> r == 0.0
    ensures r072 != 0.0 && r072 <= MaxZakladDane ==> r == NezdanitelnaCastZakladu
    ensures MaxZakladDane < r072 < Konstanta ==>
              r == Round(Max(0.0, ZivotneMinimumNasobok - Round(r072 * 0.25)))
  {
    if r072 == 0.0 || r072 >= Konstanta then 0.0
    else if r072 > MaxZakladDane then
      var reduced := Max(0.0, ZivotneMinimumNasobok - Round(r072 * 0.25));
      HalfUp2Monotone(reduced, NezdanitelnaCastZakladu);
      HalfUp2Exact(NezdanitelnaCastZakladu);
      Round(reduced)
    else NezdanitelnaCastZakladu
  }

  /** A larger positive base never earns a larger allowance `r073`. */
  lemma R073NonIncreasing(a: real, b: real)
    requires 0.0 < a <= b
    ensures R073(b) <= R073(a)
  {
    if MaxZakladDane < a && b < Konstanta {
      HalfUp2Monotone(a * 0.25, b * 0.25);
      var ra := Max(0.0, ZivotneMinimumNasobok - Round(a * 0.25));
      var rb := Max(0.0, ZivotneMinimumNasobok - Round(b * 0.25));
      HalfUp2Monotone(rb, ra);
    }
  }

  /** The partner allowance for a year at or below `Konstanta`: 4500.86 less the partner's own income. */
  function PartnerAllowance(vlastnePrijmy: real): real {
    PartnerMaxOdpocet - Max(vlastnePrijmy, 0.0)
  }

  /** The partner allowance for a year above `Konstanta`: 14862.228 less a quarter of the base less the partner's own income. */
  function PartnerAllowanceReduced(r072: real, vlastnePrijmy: real): real {
    ZvyhodnenieNaPartnera - r072 * 0.25 - Max(vlastnePrijmy, 0.0)
  }

  /**
   * `r074_znizenie_partner`: the allowance for a partner, only when it is
   * claimed and the partner form passes validation: `PartnerAllowanceReduced`
   * above `Konstanta`, `PartnerAllowance` at or below. For fewer or more
   * than 12 months a twelfth, rounded, is multiplied by the months. Every
   * result is clamped at 0 except the full-year one at or below `Konstanta`,
   * which turns negative once the partner's income reaches 4500.865.
   * `R074FullYear`, `R074ProratedReduced` and `R074Prorated` state the amount
   * in each case.
   */
  function R074(uplatnujem: bool, r072: real, vlastnePrijmy: real, pocetMesiacov: real): (r: real)
    ensures !uplatnujem ==> r == 0.0
    ensures pocetMesiacov != 12.0 || Konstanta < r072 ==> 0.0 <= r
    ensures uplatnujem && pocetMesiacov == 0.0 ==> r == 0.0
    ensures uplatnujem && r072 <= Konstanta && pocetMesiacov == 12.0 ==>
              (r < 0.0 <==> PartnerMaxOdpocet + 0.005 <= vlastnePrijmy)
    ensures uplatnujem && vlastnePrijmy <= 0.0 && r072 <= Konstanta && pocetMesiacov == 12.0 ==>
              r == PartnerMaxOdpocet
  {
    if !uplatnujem then 0.0
    else if r072 > Konstanta then
      if pocetMesiacov == 12.0 then Max(0.0, Round(PartnerAllowanceReduced(r072, vlastnePrijmy)))
      else
        // a twelfth of the allowance, rounded, times the months
        Max(0.0, Round(PartnerAllowanceReduced(r072, vlastnePrijmy) / 12.0) * pocetMesiacov)
    else if pocetMesiacov == 12.0 then
      HalfUp2Negative(PartnerAllowance(vlastnePrijmy));
      HalfUp2Exact(PartnerMaxOdpocet);
      Round(PartnerAllowance(vlastnePrijmy))
    else
      // a twelfth of the allowance, rounded, times the months, rounded again
      Max(0.0, Round(Round(PartnerAllowance(vlastnePrijmy) / 12.0) * pocetMesiacov))
  }

  /**
   * A full-year claim: the allowance rounded to cents, which above
   * `Konstanta` is first clamped at 0.
   */
  lemma R074FullYear(r072: real, vlastnePrijmy: real)
    ensures var r, a := R074(true, r072, vlastnePrijmy, 12.0), PartnerAllowance(vlastnePrijmy);
            r072 <= Konstanta ==> a - 0.005 <= r <= a + 0.005
    ensures var r, z := R074(true, r072, vlastnePrijmy, 12.0), Max(0.0, PartnerAllowanceReduced(r072, vlastnePrijmy));
            Konstanta < r072 ==> z - 0.005 <= r <= z + 0.005
  {
    if Konstanta < r072 {
      var z := PartnerAllowanceReduced(r072, vlastnePrijmy);
      ClampedError(Round(z), z, 0.005);
    }
  }

  /**
   * A claim above `Konstanta` for `k` months other than twelve: `k` twelfths
   * of the reduced allowance, clamped at 0, up to half a cent a month.
   */
  lemma R074ProratedReduced(r072: real, vlastnePrijmy: real, k: real)
    requires Konstanta < r072 && 0.0 <= k && k != 12.0
    ensures var z := Max(0.0, PartnerAllowanceReduced(r072, vlastnePrijmy) / 12.0 * k);
            z - 0.005 * k <= R074(true, r072, vlastnePrijmy, k) <= z + 0.005 * k
  {
    // Each product is passed as `R074` writes it, so that the lemma's
    // conclusion is about the very terms of `R074`.
    ClampedScaledError(Round(PartnerAllowanceReduced(r072, vlastnePrijmy) / 12.0),
                       PartnerAllowanceReduced(r072, vlastnePrijmy) / 12.0, k,
                       Round(PartnerAllowanceReduced(r072, vlastnePrijmy) / 12.0) * k,
                       PartnerAllowanceReduced(r072, vlastnePrijmy) / 12.0 * k);
  }

  /**
   * A claim at or below `Konstanta` for `k` months other than twelve: `k`
   * twelfths of the allowance, clamped at 0, up to half a cent a month and
   * half a cent more for the second rounding.
   */
  lemma R074Prorated(r072: real, vlastnePrijmy: real, k: real)
    requires r072 <= Konstanta && 0.0 <= k && k != 12.0
    ensures var a := Max(0.0, PartnerAllowance(vlastnePrijmy) / 12.0 * k);
            a - (0.005 * k + 0.005) <= R074(true, r072, vlastnePrijmy, k) <= a + (0.005 * k + 0.005)
  {
    ClampedRoundedError(PartnerAllowance(vlastnePrijmy) / 12.0, k, Round(PartnerAllowance(vlastnePrijmy) / 12.0),
                        Round(Round(PartnerAllowance(vlastnePrijmy) / 12.0) * k), PartnerAllowance(vlastnePrijmy) / 12.0 * k);
  }

  /**
   * An amount within half a cent of another, both scaled by a non-negative
   * factor and clamped at 0: within half a cent per unit of the factor.
   */
  lemma ClampedScaledError(a: real, b: real, k: real, ak: real, bk: real)
    requires b - 0.005 <= a <= b + 0.005 && 0.0 <= k
    requires ak == a * k && bk == b * k
    ensures Max(0.0, bk) - 0.005 * k <= Max(0.0, ak) <= Max(0.0, bk) + 0.005 * k
  {
    MulNonNegative(a - b + 0.005, k);
    MulNonNegative(b + 0.005 - a, k);
    ClampedError(ak, bk, 0.005 * k);
  }

  /** `RoundedProductError`, with both amounts clamped at 0. */
  lemma ClampedRoundedError(share: real, k: real, rounded: real, r: real, exact: real)
    requires 0.0 <= k && exact == share * k
    requires share - 0.005 <= rounded <= share + 0.005
    requires rounded * k - 0.005 <= r <= rounded * k + 0.005
    ensures Max(0.0, exact) - (0.005 * k + 0.005) <= Max(0.0, r) <= Max(0.0, exact) + (0.005 * k + 0.005)
  {
    RoundedProductError(share, k, rounded, r);
    ClampedError(r, share * k, 0.005 * k + 0.005);
  }

  /** Clamping two amounts at 0 never moves them further apart. */
  lemma ClampedError(x: real, y: real, e: real)
    requires y - e <= x <= y + e
    ensures Max(0.0, y) - e <= Max(0.0, x) <= Max(0.0, y) + e
  {
  }

  /** The more the partner earns, the smaller (or equal) the allowance `r074`, for any number of months. */
  lemma R074PartnerIncomeNonIncreasing(uplatnujem: bool, r072: real, v1: real, v2: real, pocetMesiacov: real)
    requires v1 <= v2 && 0.0 <= pocetMesiacov
    ensures R074(uplatnujem, r072, v2, pocetMesiacov) <= R074(uplatnujem, r072, v1, pocetMesiacov)
  {
    if !uplatnujem {
    } else if pocetMesiacov == 12.0 && r072 > Konstanta {
      HalfUp2Monotone(PartnerAllowanceReduced(r072, v2), PartnerAllowanceReduced(r072, v1));
    } else if pocetMesiacov == 12.0 {
      HalfUp2Monotone(PartnerAllowance(v2), PartnerAllowance(v1));
    } else if r072 > Konstanta {
      ReducedTwelfthsOrdered(r072, v1, v2, pocetMesiacov);
    } else {
      TwelfthsOrdered(v1, v2, pocetMesiacov);
    }
  }

  /** The reduced allowance's rounded twelfth times the months, clamped at 0, falls as the partner's income rises. */
  lemma ReducedTwelfthsOrdered(r072: real, v1: real, v2: real, k: real)
    requires v1 <= v2 && 0.0 <= k
    ensures Max(0.0, Round(PartnerAllowanceReduced(r072, v2) / 12.0) * k)
            <= Max(0.0, Round(PartnerAllowanceReduced(r072, v1) / 12.0) * k)
  {
    ReducedSharesOrdered(r072, v1, v2);
    ScaledMonotone(Round(PartnerAllowanceReduced(r072, v1) / 12.0), Round(PartnerAllowanceReduced(r072, v2) / 12.0), k,
                   Round(PartnerAllowanceReduced(r072, v1) / 12.0) * k, Round(PartnerAllowanceReduced(r072, v2) / 12.0) * k);
  }

  /** The allowance's rounded twelfth times the months, rounded and clamped at 0, falls as the partner's income rises. */
  lemma TwelfthsOrdered(v1: real, v2: real, k: real)
    requires v1 <= v2 && 0.0 <= k
    ensures Max(0.0, Round(Round(PartnerAllowance(v2) / 12.0) * k))
            <= Max(0.0, Round(Round(PartnerAllowance(v1) / 12.0) * k))
  {
    SharesOrdered(v1, v2);
    ScaledRoundedMonotone(Round(PartnerAllowance(v1) / 12.0), Round(PartnerAllowance(v2) / 12.0), k,
                          Round(PartnerAllowance(v1) / 12.0) * k, Round(PartnerAllowance(v2) / 12.0) * k);
  }

  /** The reduced allowance's rounded twelfth falls as the partner's income rises. */
  lemma ReducedSharesOrdered(r072: real, v1: real, v2: real)
    requires v1 <= v2
    ensures Round(PartnerAllowanceReduced(r072, v2) / 12.0) <= Round(PartnerAllowanceReduced(r072, v1) / 12.0)
  {
    HalfUp2Monotone(PartnerAllowanceReduced(r072, v2) / 12.0, PartnerAllowanceReduced(r072, v1) / 12.0);
  }

  /** The allowance's rounded twelfth falls as the partner's income rises. */
  lemma SharesOrdered(v1: real, v2: real)
    requires v1 <= v2
    ensures Round(PartnerAllowance(v2) / 12.0) <= Round(PartnerAllowance(v1) / 12.0)
  {
    HalfUp2Monotone(PartnerAllowance(v2) / 12.0, PartnerAllowance(v1) / 12.0);
  }

  /** Scaling by a non-negative factor, then clamping at 0, keeps the order of two amounts. */
  lemma ScaledMonotone(hi: real, lo: real, k: real, hk: real, lk: real)
    requires lo <= hi && 0.0 <= k
    requires hk == hi * k && lk == lo * k
    ensures Max(0.0, lk) <= Max(0.0, hk)
  {
    MulNonNegative(hi - lo, k);
  }

  /** The same with the products rounded to cents before the clamp. */
  lemma ScaledRoundedMonotone(hi: real, lo: real, k: real, hk: real, lk: real)
    requires lo <= hi && 0.0 <= k
    requires hk == hi * k && lk == lo * k
    ensures Max(0.0, Round(lk)) <= Max(0.0, Round(hk))
  {
    MulNonNegative(hi - lo, k);
    HalfUp2Monotone(lk, hk);
  }

  /**
   * `r077_nezdanitelna_cast`: the non-taxable parts together (own, partner,
   * pension savings), but never more than the base `r072`.
   */
  function R077(r073: real, r074: real, r075: real, r072: real): (r: real)
    ensures r <= r072
    ensures r <= r073 + r074 + r075
    ensures r == r072 || r == r073 + r074 + r075
  {
    Min(r073 + r074 + r075, r072)
  }

  /** `r078_zaklad_dane_zo_zamestnania`: the employment base after the non-taxable part, at least 0. */
  function R078(r038: real, r077: real): (r: real)
    ensures 0.0 <= r
    ensures WholeCents(r)
    ensures r038 <= r077 ==> r == 0.0
    ensures r077 < r038 ==> r038 - r077 - 0.005 <= r <= r038 - r077 + 0.005
  {
    Round(Max(r038 - r077, 0.0))
  }

  /**
   * `r091`: what is left of the non-taxable part once the employment base is
   * used up, to be taken from the business base; 0 while `r078` is positive.
   */
  function R091(r078: real, r077: real, r038: real): (r: real)
    ensures 0.0 <= r
    ensures WholeCents(r)
    ensures r078 != 0.0 ==> r == 0.0
    ensures r078 == 0.0 && r077 <= r038 ==> r == 0.0
    ensures r078 == R078(r038, r077) ==> r078 - r == Round(r038 - r077)
  {
    var d := r038 - r077;
    HalfUp2Odd(d);
    assert d <= 0.0 ==> R078(r038, r077) == Round(0.0) == 0.0 && Max(r077 - r038, 0.0) == -d;
    if r078 == 0.0 then Round(Max(r077 - r038, 0.0)) else 0.0
  }

  // ------------------------------------------------------------------- tax

  /**
   * The two-band income tax: 19% of the part up to `Konstanta`, 25% of the
   * part above it.
   */
  function ProgressiveTax(zaklad: real): real {
    DanZPrijmuSadzba * Min(zaklad, Konstanta) + DanZPrijmuSadzbaZvysena * Max(zaklad - Konstanta, 0.0)
  }

  /** A larger base never owes less two-band tax, and the tax lies between 19% and 25% of the base. */
  lemma ProgressiveTaxMonotone(a: real, b: real)
    requires a <= b
    ensures ProgressiveTax(a) <= ProgressiveTax(b)
    ensures 0.0 <= a ==> DanZPrijmuSadzba * a <= ProgressiveTax(a) <= DanZPrijmuSadzbaZvysena * a
  {
  }

  /** `r081`: the tax on the employment base `r080`, by the two bands. */
  function R081(r080: real): (r: real)
    ensures r == ProgressiveTax(r080)
    ensures 0.0 <= r080 ==> 0.0 <= r
  {
    if r080 == 0.0 then 0.0
    else if r080 <= Konstanta then r080 * DanZPrijmuSadzba
    else Konstanta * DanZPrijmuSadzba + (r080 - Konstanta) * DanZPrijmuSadzbaZvysena
  }

  /**
   * `r096`: the tax on the business base `r094`: nothing for a base at or
   * below 0, 15% when the business income `r095` is at most 49790, and the
   * two bands otherwise.
   */
  function R096(r094: real, r095: real): (r: real)
    ensures 0.0 <= r
    ensures r094 <= 0.0 ==> r == 0.0
    ensures 0.0 < r094 && r095 <= DanZPrijmuZnizenaSadzbaLimit ==> r == DanZPrijmuSadzbaZnizena * r094
    ensures 0.0 < r094 && DanZPrijmuZnizenaSadzbaLimit < r095 ==> r == ProgressiveTax(r094)
  {
    if r094 <= 0.0 then 0.0
    else if r095 <= DanZPrijmuZnizenaSadzbaLimit then r094 * DanZPrijmuSadzbaZnizena
    else if r094 <= Konstanta then r094 * DanZPrijmuSadzba
    else Konstanta * DanZPrijmuSadzba + (r094 - Konstanta) * DanZPrijmuSadzbaZvysena
  }

  /** `r116_dan`: the total tax, employment plus business, rounded to cents. */
  function R116(r090: real, r105: real): (r: real)
    ensures WholeCents(r)
    ensures 0.0 <= r090 && 0.0 <= r105 ==> 0.0 <= r
    ensures r090 + r105 - 0.005 <= r <= r090 + r105 + 0.005
  {
    Round(r090 + r105)
  }

  // ------------------------------------------------------------ settlement

  /** The balance the settlement lines split into tax due and overpayment. */
  function Balance(r116: real, r117: real, r119: real, r121: real, r131: real, r133: real): real {
    r116 - r117 + r119 + r121 - r131 - r133
  }

  /**
   * `r135_dan_na_uhradu`: the tax still to pay. The tax counts only when it
   * exceeds 17 or a child bonus is claimed; the bonus (`r117`), the bonus
   * already received (`r119`), the bonus to be paid out (`r121`) and the
   * advances (`r131`, `r133`) are settled against it; an amount of 5 or less
   * is not collected.
   */
  function R135(r116: real, r117: real, r119: real, r121: real, r131: real, r133: real): (r: real)
    ensures 0.0 <= r
    ensures r == 0.0 || 5.0 < r
  {
    var baseTax := if r116 > 17.0 || r117 > 0.0 then r116 else 0.0;
    var tax := Max(0.0, Balance(baseTax, r117, r119, r121, r131, r133));
    if tax > 5.0 then tax else 0.0
  }

  /** `r136_danovy_preplatok`: the overpayment, what the settlement leaves below zero. */
  function R136(r116: real, r117: real, r119: real, r121: real, r131: real, r133: real): (r: real)
    ensures 0.0 <= r
  {
    Abs(Min(0.0, Balance(r116, r117, r119, r121, r131, r133)))
  }

  /**
   * When the tax counts, a balance above 5 is due in full, a balance at or
   * below 0 is overpaid in full, and a balance in between is neither.
   */
  lemma SettlementSplit(r116: real, r117: real, r119: real, r121: real, r131: real, r133: real)
    requires r116 > 17.0 || r117 > 0.0
    ensures var b := Balance(r116, r117, r119, r121, r131, r133);
            (5.0 < b ==> R135(r116, r117, r119, r121, r131, r133) == b
                         && R136(r116, r117, r119, r121, r131, r133) == 0.0)
            && (b <= 0.0 ==> R135(r116, r117, r119, r121, r131, r133) == 0.0
                             && R136(r116, r117, r119, r121, r131, r133) == -b)
            && (0.0 < b <= 5.0 ==> R135(r116, r117, r119, r121, r131, r133) == 0.0
                                   && R136(r116, r117, r119, r121, r131, r133) == 0.0)
  {
  }

  /** The overpayment is the part of the balance below zero, whether or not the tax counts. */
  lemma OverpaidIsNegativeBalance(r116: real, r117: real, r119: real, r121: real, r131: real, r133: real)
    ensures var b := Balance(r116, r117, r119, r121, r131, r133);
            R136(r116, r117, r119, r121, r131, r133) == (if b <= 0.0 then -b else 0.0)
  {
  }

  /**
   * The tax due is the balance taken with the tax only when the tax counts
   * (above 17, or a child bonus claimed), when that balance exceeds 5, and 0
   * otherwise.
   */
  lemma DueIsGatedBalance(r116: real, r117: real, r119: real, r121: real, r131: real, r133: real)
    ensures var b := Balance(if r116 > 17.0 || r117 > 0.0 then r116 else 0.0, r117, r119, r121, r131, r133);
            R135(r116, r117, r119, r121, r131, r133) == (if 5.0 < b then b else 0.0)
  {
  }

  /** A tax of at most 17 with no child bonus is not collected: `r135` is as for a tax of 0. */
  lemma SmallTaxIgnored(r116: real, r117: real, r119: real, r121: real, r131: real, r133: real)
    requires r116 <= 17.0 && r117 <= 0.0
    ensures R135(r116, r117, r119, r121, r131, r133) == R135(0.0, r117, r119, r121, r131, r133)
  {
  }

  /** With a non-negative tax, there is never both tax to pay and an overpayment. */
  lemma DueOrOverpaidIf(r116: real, r117: real, r119: real, r121: real, r131: real, r133: real)
    ensures 0.0 <= r116 ==>
              !(0.0 < R135(r116, r117, r119, r121, r131, r133) && 0.0 < R136(r116, r117, r119, r121, r131, r133))
  {
  }

  // -------------------------------------------------------------- donation

  /** `canDonateTwoPercentOfTax`: 3% of the tax `r124` reaches the minimum donation of 3, i.e. the tax is at least 100. */
  function CanDonateTwoPercentOfTax(r124: real): (b: bool)
    ensures b <==> 100.0 <= r124
  {
    Percentage(r124, 3) >= Min2PercentCalculatedDonation
  }

  /**
   * `r151`: the share of the tax assigned to an organisation, when the
   * taxpayer asks for it: 3% when `splnam3per`, 2% otherwise, or nothing when
   * that share is below 3.
   */
  function R151(uplatnujem2percenta: bool, splnam3per: bool, r124: real): (r: real)
    ensures !uplatnujem2percenta ==> r == 0.0
    ensures r == 0.0 || (Min2PercentCalculatedDonation <= r && r == Percentage(r124, if splnam3per then 3 else 2))
    ensures uplatnujem2percenta && 0.0 <= r124 ==>
              (r != 0.0 <==> (if splnam3per then 100.0 else 150.0) <= r124)
  {
    if !uplatnujem2percenta then 0.0
    else
      var ngoAmount := if splnam3per then Percentage(r124, 3) else Percentage(r124, 2);
      if ngoAmount >= Min2PercentCalculatedDonation then ngoAmount else 0.0
  }

  /** When even 3% of a non-negative tax is under 3, nothing is donated, whatever the taxpayer asked. */
  lemma NoDonationBelowMinimum(uplatnujem2percenta: bool, splnam3per: bool, r124: real)
    ensures 0.0 <= r124 && !CanDonateTwoPercentOfTax(r124) ==> R151(uplatnujem2percenta, splnam3per, r124) == 0.0
  {
  }

  // ------------------------------------------------------------------ form

  /** `r033`: the children as they go on the form. */
  function R033(u: UserInput): (r033: seq<Child>)
    ensures |r033| == |u.children|
    ensures forall i :: 0 <= i < |r033| ==> r033[i] == MakeMapChild(u.hasChildren, u.children[i])
  {
    seq(|u.children|, i requires 0 <= i < |u.children| => MakeMapChild(u.hasChildren, u.children[i]))
  }

  /** Without children (`hasChildren` false) no month counts any child, so there is no child bonus. */
  lemma NoChildrenNoBonus(ageAt: (string, int, int) -> int, u: UserInput, zakladDane: real)
    ensures !u.hasChildren ==> ChildBonus(ageAt, R033(u), zakladDane) == 0.0
  {
    if !u.hasChildren {
      var r033 := R033(u);
      forall m: Month, i | 0 <= i < |r033| ensures !Eligible(r033[i], m) {
        assert r033[i] == MakeMapChild(false, u.children[i]);
      }
      NoEligibleChildNoBonus(ageAt, r033, zakladDane);
    }
  }

  /** The income lines: business income and expenses, employment income and the two tax bases. */
  datatype IncomeLines = IncomeLines(
    t1r10_prijmy: real,
    priloha3_r11_socialne: real,
    priloha3_r13_zdravotne: real,
    vydavkyPoistPar6ods11_ods1a2: real,
    t1r10_vydavky: real,
    r036: real,
    priloha3_r09_socialne: real,
    priloha3_r10_zdravotne: real,
    r037: real,
    r038: real,
    r041: real,
    r072_pred_znizenim: real)

  /**
   * The income part of `calculate`: expenses within income, the business
   * base (`r041`, copied to `r045`, `r055`, `r057`) is the profit, and
   * `r072` adds the employment base `r038` to it (`sum` of the utilities
   * taken as plain addition).
   */
  function Income(h: Helpers, u: UserInput): (i: IncomeLines)
    ensures i.t1r10_vydavky <= i.t1r10_prijmy
    ensures 0.0 <= i.r041 && i.r041 == i.t1r10_prijmy - i.t1r10_vydavky
    ensures i.r072_pred_znizenim == i.r041 + i.r038
  {
    var prijmy := h.parseInputNumber(u.t1r10_prijmy);
    var socialne := h.parseInputNumber(u.priloha3_r11_socialne);
    var zdravotne := h.parseInputNumber(u.priloha3_r13_zdravotne);
    var vydavky := FlatExpenses(prijmy, socialne + zdravotne);
    var r036 := h.parseInputNumber(u.uhrnPrijmovOdVsetkychZamestnavatelov);
    var r09 := h.parseInputNumber(u.uhrnPovinnehoPoistnehoNaSocialnePoistenie);
    var r10 := h.parseInputNumber(u.uhrnPovinnehoPoistnehoNaZdravotnePoistenie);
    var r041 := R041(prijmy, vydavky);
    BusinessBaseIsProfit(prijmy, socialne + zdravotne);
    IncomeLines(prijmy, socialne, zdravotne, socialne + zdravotne, vydavky,
                r036, r09, r10, r09 + r10, r036 - (r09 + r10), r041, r041 + r036 - (r09 + r10))
  }

  /** The non-taxable parts and the tax lines. */
  datatype TaxLines = TaxLines(
    r075_zaplatene_prispevky_na_dochodok: real,
    r032_uplatnujem_na_partnera: bool,
    r032_partner_vlastne_prijmy: real,
    r032_partner_pocet_mesiacov: real,
    r073: real,
    r074_znizenie_partner: real,
    r077_nezdanitelna_cast: real,
    r078_zaklad_dane_zo_zamestnania: real,
    r081: real,
    r091: real,
    r092: real,
    r096: real,
    r116_dan: real)

  /**
   * The allowance and tax part of `calculate`: the inputs it reads (pension
   * contributions capped at 180, the partner claim only when the validator
   * accepts it, the partner's income and months) and the lines computed
   * from them.
   */
  function Taxes(h: Helpers, u: UserInput, i: IncomeLines): (t: TaxLines)
    ensures t.r032_uplatnujem_na_partnera <==> u.r032_uplatnujem_na_partnera && h.validatePartnerBonusForm(u)
    ensures t.r075_zaplatene_prispevky_na_dochodok <= DochodokMax
  {
    TaxComputation(i,
                   Min(DochodokMax, h.parseInputNumber(u.zaplatene_prispevky_na_dochodok)),
                   u.r032_uplatnujem_na_partnera && h.validatePartnerBonusForm(u),
                   h.parseInputNumber(u.r032_partner_vlastne_prijmy),
                   h.parseInputNumber(u.r032_partner_pocet_mesiacov))
  }

  /**
   * The lines of the allowance and tax part, from the income lines and the
   * inputs read: the partner allowance only when claimed, the non-taxable
   * part within the base, the employment base and the carry-over splitting
   * the rounded difference, and non-negative taxes.
   */
  function TaxComputation(i: IncomeLines, r075: real, r032: bool, vlastnePrijmy: real, pocetMesiacov: real)
    : (t: TaxLines)
    ensures t.r075_zaplatene_prispevky_na_dochodok == r075 && t.r032_uplatnujem_na_partnera == r032
    ensures 0.0 <= t.r073 <= NezdanitelnaCastZakladu
    ensures !r032 ==> t.r074_znizenie_partner == 0.0
    ensures t.r077_nezdanitelna_cast <= i.r072_pred_znizenim
    ensures 0.0 <= t.r078_zaklad_dane_zo_zamestnania && 0.0 <= t.r091
    ensures t.r078_zaklad_dane_zo_zamestnania - t.r091 == Round(i.r038 - t.r077_nezdanitelna_cast)
    ensures t.r092 == i.r041 - t.r091
    ensures t.r081 == ProgressiveTax(t.r078_zaklad_dane_zo_zamestnania) && 0.0 <= t.r081
    ensures 0.0 <= t.r096 && 0.0 <= t.r116_dan
  {
    var r073 := R073(i.r072_pred_znizenim);
    var r074 := R074(r032, i.r072_pred_znizenim, vlastnePrijmy, pocetMesiacov);
    var r077 := R077(r073, r074, r075, i.r072_pred_znizenim);
    var r078 := R078(i.r038, r077);
    var r081 := R081(r078);
    var r091 := R091(r078, r077, i.r038);
    var r096 := R096(i.r041 - r091, i.t1r10_prijmy);
    TaxLines(r075, r032, vlastnePrijmy, pocetMesiacov, r073, r074, r077, r078, r081, r091, i.r041 - r091,
             r096, R116(r081, r096))
  }

  /** The child bonus and the settlement lines. */
  datatype SettlementLines = SettlementLines(
    r117: real,
    r118: real,
    r119: real,
    r120: real,
    r121: real,
    r131: real,
    r133: real,
    r135_dan_na_uhradu: real,
    r136_danovy_preplatok: real,
    mozeZiadatVyplatitDanovyBonus: bool,
    mozeZiadatVratitDanovyPreplatok: bool)

  /**
   * The settlement part of `calculate`: the child bonus on the base
   * `r038 + r045`, the tax after the bonus (`r118`), the bonus still to be
   * paid out (`r120`, `r121`), the tax due and the overpayment.
   */
  function Settlement(h: Helpers, u: UserInput, i: IncomeLines, r116: real): (s: SettlementLines)
    ensures i.r038 + i.r041 >= 0.0 ==> 0.0 <= s.r117
    ensures !u.hasChildren ==> s.r117 == 0.0
    ensures s.r118 == Max(r116 - s.r117, 0.0)
    ensures 0.0 <= s.r118 && r116 - s.r117 <= s.r118
    ensures 0.0 <= s.r120 && 0.0 <= s.r121
    ensures 0.0 <= r116 ==> s.r121 <= s.r120
    ensures 0.0 <= s.r135_dan_na_uhradu && (s.r135_dan_na_uhradu == 0.0 || 5.0 < s.r135_dan_na_uhradu)
    ensures 0.0 <= s.r136_danovy_preplatok
    ensures 0.0 <= r116 ==> !(0.0 < s.r135_dan_na_uhradu && 0.0 < s.r136_danovy_preplatok)
    ensures s.mozeZiadatVyplatitDanovyBonus <==> 0.0 < s.r121
    ensures s.mozeZiadatVratitDanovyPreplatok <==> 0.0 < s.r136_danovy_preplatok
  {
    var zakladDane := i.r038 + i.r041;
    var r117 := ChildBonus(h.ageAt, R033(u), zakladDane);
    ChildBonusNonNegative(h.ageAt, R033(u), zakladDane);
    NoChildrenNoBonus(h.ageAt, u, zakladDane);
    var r118 := Max(r116 - r117, 0.0);
    var r119 := h.parseInputNumber(u.udajeODanovomBonuseNaDieta);
    var r120 := Max(r117 - r119, 0.0);
    var r121 := Max(r120 - r116, 0.0);
    var r131 := h.parseInputNumber(u.uhrnPreddavkovNaDan);
    var r133 := h.parseInputNumber(u.zaplatenePreddavky);
    DueOrOverpaidIf(r116, r117, r119, r121, r131, r133);
    var r136 := R136(r116, r117, r119, r121, r131, r133);
    SettlementLines(r117, r118, r119, r120, r121, r131, r133, R135(r116, r117, r119, r121, r131, r133), r136,
                    r121 > 0.0, r136 > 0.0)
  }

  /** The lines of section XII, the share of the tax assigned to an organisation. */
  datatype DonationLines = DonationLines(
    suma_2_percenta: real,
    suma_3_percenta: real,
    r151: real,
    r152: Option<NgoRecipient>,
    XIIoddiel_uplatnujem2percenta: bool,
    canDonateTwoPercentOfTax: bool)

  /**
   * The donation part of `calculate` on the tax `r124`: the election on the
   * form only when the share can reach the minimum; the recipient only when
   * the user elected to give.
   */
  function Donation(u: UserInput, r124: real): (d: DonationLines)
    ensures d.suma_2_percenta == Percentage(r124, 2) && d.suma_3_percenta == Percentage(r124, 3)
    ensures d.canDonateTwoPercentOfTax <==> 100.0 <= r124
    ensures d.XIIoddiel_uplatnujem2percenta <==> d.canDonateTwoPercentOfTax && u.XIIoddiel_uplatnujem2percenta
    ensures 0.0 <= r124 && !d.canDonateTwoPercentOfTax ==> d.r151 == 0.0
    ensures d.r151 == R151(u.XIIoddiel_uplatnujem2percenta, u.splnam3per, r124)
    ensures d.r152.Some? <==> u.XIIoddiel_uplatnujem2percenta
    ensures d.r152.Some? ==> forall k :: 0 <= k < |d.r152.value.ico| ==> IsDigit(d.r152.value.ico[k])
  {
    var canDonate := CanDonateTwoPercentOfTax(r124);
    NoDonationBelowMinimum(u.XIIoddiel_uplatnujem2percenta, u.splnam3per, r124);
    DonationLines(
      Percentage(r124, 2),
      Percentage(r124, 3),
      R151(u.XIIoddiel_uplatnujem2percenta, u.splnam3per, r124),
      if u.XIIoddiel_uplatnujem2percenta
      then Some(NgoRecipient(DigitsOnly(u.r142_ico), u.r142_obchMeno, u.XIIoddiel_suhlasZaslUdaje))
      else None,
      canDonate && u.XIIoddiel_uplatnujem2percenta,
      canDonate)
  }

  /**
   * The return `calculate` produces, by section (the personal and address
   * lines are left out). Lines the source defines as another line are the
   * member functions below.
   */
  datatype TaxForm = TaxForm(
    income: IncomeLines,
    platil_prispevky_na_dochodok: bool,
    r033: seq<Child>,
    taxes: TaxLines,
    settlement: SettlementLines,
    splnam3per: bool,
    donation: DonationLines,
    mikrodanovnik: bool)
  {
    function r045(): real { income.r041 }
    function r055(): real { income.r041 }
    function r057(): real { income.r041 }
    function r080_zaklad_dane_celkovo(): real { taxes.r078_zaklad_dane_zo_zamestnania }
    function r090(): real { taxes.r081 }
    function r094(): real { taxes.r092 }
    function r095(): real { income.t1r10_prijmy }
    function r105(): real { taxes.r096 }
    function r124(): real { settlement.r118 }
  }

  /**
   * `calculate(input)`: every line in dependency order. The result keeps the
   * invariants of the return across its sections: the non-taxable part
   * within the base, the tax due and the overpayment never both positive,
   * the donation election only when the tax allows it.
   */
  function Calculate(h: Helpers, u: UserInput): (f: TaxForm)
    ensures f.taxes.r077_nezdanitelna_cast <= f.income.r072_pred_znizenim
    ensures f.income.r038 + f.r045() >= 0.0 ==> 0.0 <= f.settlement.r117
    ensures !u.hasChildren ==> f.settlement.r117 == 0.0
    ensures 0.0 <= f.taxes.r116_dan && f.r124() == Max(f.taxes.r116_dan - f.settlement.r117, 0.0)
    ensures !(0.0 < f.settlement.r135_dan_na_uhradu && 0.0 < f.settlement.r136_danovy_preplatok)
    ensures f.donation.canDonateTwoPercentOfTax <==> 100.0 <= f.r124()
    ensures !f.donation.canDonateTwoPercentOfTax ==> f.donation.r151 == 0.0
    ensures f.mikrodanovnik <==> f.r095() <= DanZPrijmuZnizenaSadzbaLimit
  {
    var i := Income(h, u);
    var t := Taxes(h, u, i);
    var s := Settlement(h, u, i, t.r116_dan);
    TaxForm(i, u.platil_prispevky_na_dochodok, R033(u), t, s, u.splnam3per, Donation(u, s.r118),
            i.t1r10_prijmy <= DanZPrijmuZnizenaSadzbaLimit)
  }
}
