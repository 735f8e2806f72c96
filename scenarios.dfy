/**
 * The returns the engine computes for two of the repository's end-to-end
 * inputs, line by line. The number parser is a parameter of the engine, so
 * each scenario states what it returns for the strings of its input.
 */
module Scenarios {
  import opened Wrappers
  import opened Money
  import opened Children
  import opened ChildTaxBonus
  import opened Calculation

  const Morty := ChildInput("Morty Smith", "1607201167", true, 6, 11)
  const Summer := ChildInput("Summer Smith", "1057201167", true, 6, 11)

  /** `withEmploymentBonusInput`: business and employment income, two children all year. */
  const EmploymentBonusInput := UserInput(
    t1r10_prijmy := "5445",
    priloha3_r11_socialne := "435.22",
    priloha3_r13_zdravotne := "217.33",
    platil_prispevky_na_dochodok := false,
    zaplatene_prispevky_na_dochodok := "0",
    r032_uplatnujem_na_partnera := false,
    r032_partner_vlastne_prijmy := "0",
    r032_partner_pocet_mesiacov := "0",
    hasChildren := true,
    children := [Morty, Summer],
    uhrnPrijmovOdVsetkychZamestnavatelov := "3248.30",
    uhrnPovinnehoPoistnehoNaSocialnePoistenie := "305.12",
    uhrnPovinnehoPoistnehoNaZdravotnePoistenie := "130.10",
    udajeODanovomBonuseNaDieta := "221.70",
    uhrnPreddavkovNaDan := "78.20",
    zaplatenePreddavky := "0",
    splnam3per := false,
    XIIoddiel_uplatnujem2percenta := false,
    r142_ico := "",
    r142_obchMeno := "",
    XIIoddiel_suhlasZaslUdaje := false)

  /** The number parser reads the strings of `withEmploymentBonusInput` as the decimals they spell. */
  predicate ParsesEmploymentBonusInput(h: Helpers) {
    && h.parseInputNumber("5445") == 5445.0
    && h.parseInputNumber("435.22") == 435.22
    && h.parseInputNumber("217.33") == 217.33
    && h.parseInputNumber("3248.30") == 3248.30
    && h.parseInputNumber("305.12") == 305.12
    && h.parseInputNumber("130.10") == 130.10
    && h.parseInputNumber("221.70") == 221.70
    && h.parseInputNumber("78.20") == 78.20
    && h.parseInputNumber("0") == 0.0
  }

  /**
   * Two children claimed all year on a base of 4338.53: their rates add up
   * to at least 1200, above the cap of 27% of the base, so the bonus is the
   * cap, 1171.40, whatever the children's ages.
   */
  lemma EmploymentBonusChildBonus(ageAt: (string, int, int) -> int, children: seq<Child>)
    requires |children| == 2 && children[0].m00 && children[1].m00
    ensures ChildBonus(ageAt, children, 4338.53) == 1171.40
  {
    assert WholeCents(4338.53) by {
      assert (4338.53 * 100.0).Floor == 433853;
    }
    RoundUp2Exact(4338.53);
    assert HalfUp2(4338.53 * 0.27) == 1171.40 by {
      assert (4338.53 * 0.27 * 100.0 + 0.5).Floor == 117140;
    }
    WholeYearBonus(ageAt, children, 4338.53);
  }

  /**
   * The return for `withEmploymentBonusInput`: the non-taxable part takes
   * the whole employment base and 1525.45 of the business base, so there is
   * no tax; the child bonus of 1171.40, less the 221.70 the employer already
   * paid, is paid out as 949.70, and the employer's 78.20 of advances is
   * overpaid and refundable.
   */
  lemma EmploymentBonusReturn(h: Helpers)
    requires ParsesEmploymentBonusInput(h)
    ensures var f := Calculate(h, EmploymentBonusInput);
            && f.income.t1r10_vydavky == 3919.55
            && f.income.r041 == 1525.45
            && f.income.r038 == 2813.08
            && f.income.r072_pred_znizenim == 4338.53
            && f.taxes.r073 == NezdanitelnaCastZakladu
            && f.taxes.r077_nezdanitelna_cast == 4338.53
            && f.taxes.r078_zaklad_dane_zo_zamestnania == 0.0
            && f.taxes.r091 == 1525.45
            && f.taxes.r116_dan == 0.0
            && f.settlement.r117 == 1171.40
            && f.settlement.r121 == 949.70
            && f.settlement.r135_dan_na_uhradu == 0.0
            && f.settlement.r136_danovy_preplatok == 78.20
            && f.settlement.mozeZiadatVyplatitDanovyBonus
            && f.settlement.mozeZiadatVratitDanovyPreplatok
  {
    var u := EmploymentBonusInput;
    var i := Income(h, u);
    assert i.t1r10_vydavky == 3919.55 && i.r041 == 1525.45;
    assert i.r038 == 2813.08 && i.r072_pred_znizenim == 4338.53;
    assert WholeCents(1525.45) by {
      assert (1525.45 * 100.0).Floor == 152545;
    }
    HalfUp2Exact(1525.45);
    var t := Taxes(h, u, i);
    assert t.r077_nezdanitelna_cast == 4338.53;
    assert t.r091 == 1525.45 && t.r116_dan == 0.0;
    var r033 := R033(u);
    assert r033[0] == MakeMapChild(true, Morty) && r033[1] == MakeMapChild(true, Summer);
    EmploymentBonusChildBonus(h.ageAt, r033);
    var s := Settlement(h, u, i, t.r116_dan);
    assert s.r117 == 1171.40;
  }

  /** `completeInput`: business income, a partner with income of their own, no employment. */
  const CompleteInput := UserInput(
    t1r10_prijmy := "25000",
    priloha3_r11_socialne := "1000",
    priloha3_r13_zdravotne := "1000",
    platil_prispevky_na_dochodok := false,
    zaplatene_prispevky_na_dochodok := "0",
    r032_uplatnujem_na_partnera := true,
    r032_partner_vlastne_prijmy := "4000",
    r032_partner_pocet_mesiacov := "12",
    hasChildren := false,
    children := [],
    uhrnPrijmovOdVsetkychZamestnavatelov := "0",
    uhrnPovinnehoPoistnehoNaSocialnePoistenie := "0",
    uhrnPovinnehoPoistnehoNaZdravotnePoistenie := "0",
    udajeODanovomBonuseNaDieta := "0",
    uhrnPreddavkovNaDan := "0",
    zaplatenePreddavky := "0",
    splnam3per := false,
    XIIoddiel_uplatnujem2percenta := false,
    r142_ico := "",
    r142_obchMeno := "",
    XIIoddiel_suhlasZaslUdaje := false)

  /** The number parser reads the strings of `completeInput` as the decimals they spell. */
  predicate ParsesCompleteInput(h: Helpers) {
    && h.parseInputNumber("25000") == 25000.0
    && h.parseInputNumber("1000") == 1000.0
    && h.parseInputNumber("4000") == 4000.0
    && h.parseInputNumber("12") == 12.0
    && h.parseInputNumber("0") == 0.0
  }

  /** The income lines of `completeInput`: 25000 of business income less 17000 of flat expenses. */
  const CompleteIncome := IncomeLines(25000.0, 1000.0, 1000.0, 2000.0, 17000.0, 0.0, 0.0, 0.0, 0.0, 0.0, 8000.0, 8000.0)

  /**
   * The tax lines of `completeInput` with the partner claim accepted: the
   * partner's 4000 leaves 500.86 of the partner allowance, the non-taxable
   * part 4922.82 + 500.86 = 5423.68 comes off the business base, and the 15%
   * tax on the remaining 2576.32 is 386.448, rounded to 386.45.
   */
  lemma CompleteInputTaxes()
    ensures TaxComputation(CompleteIncome, 0.0, true, 4000.0, 12.0)
            == TaxLines(0.0, true, 4000.0, 12.0, NezdanitelnaCastZakladu, 500.86, 5423.68, 0.0, 0.0, 5423.68,
                        2576.32, 386.448, 386.45)
  {
    assert WholeCents(500.86) by {
      assert (500.86 * 100.0).Floor == 50086;
    }
    HalfUp2Exact(500.86);
    assert WholeCents(5423.68) by {
      assert (5423.68 * 100.0).Floor == 542368;
    }
    HalfUp2Exact(5423.68);
    assert (386.448 * 100.0 + 0.5).Floor == 38645;
  }

  /** What the engine reads from `completeInput`: the income lines, and the partner claim for the tax lines. */
  lemma CompleteInputRead(h: Helpers)
    requires ParsesCompleteInput(h) && h.validatePartnerBonusForm(CompleteInput)
    ensures Income(h, CompleteInput) == CompleteIncome
    ensures Taxes(h, CompleteInput, CompleteIncome) == TaxComputation(CompleteIncome, 0.0, true, 4000.0, 12.0)
  {
  }

  /** The settlement of `completeInput`: no children, so no bonus, and the whole tax of 386.45 due. */
  lemma CompleteInputSettlement(h: Helpers)
    requires ParsesCompleteInput(h)
    ensures Settlement(h, CompleteInput, CompleteIncome, 386.45)
            == SettlementLines(0.0, 386.45, 0.0, 0.0, 0.0, 0.0, 0.0, 386.45, 0.0, false, false)
  {
    NoChildrenNoBonus(h.ageAt, CompleteInput, 8000.0);
    assert ChildBonus(h.ageAt, R033(CompleteInput), CompleteIncome.r038 + CompleteIncome.r041) == 0.0;
  }

  /** The donation lines of `completeInput`: 2% and 3% of 386.45, enough for a donation, none elected. */
  lemma CompleteInputDonation()
    ensures Donation(CompleteInput, 386.45) == DonationLines(7.729, 11.5935, 0.0, None, false, true)
  {
  }

  /**
   * The return for `completeInput` with a partner claim the validator
   * accepts, in full: the tax lines above; no child bonus; the whole 386.45
   * due and nothing overpaid; 2% and 3% of the tax computed, the tax large
   * enough for a donation though none is elected; the business income
   * within the 15% band.
   */
  lemma CompleteInputReturn(h: Helpers)
    requires ParsesCompleteInput(h) && h.validatePartnerBonusForm(CompleteInput)
    ensures Calculate(h, CompleteInput)
            == TaxForm(
                 CompleteIncome,
                 false,
                 [],
                 TaxLines(0.0, true, 4000.0, 12.0, NezdanitelnaCastZakladu, 500.86, 5423.68, 0.0, 0.0, 5423.68,
                          2576.32, 386.448, 386.45),
                 SettlementLines(0.0, 386.45, 0.0, 0.0, 0.0, 0.0, 0.0, 386.45, 0.0, false, false),
                 false,
                 DonationLines(7.729, 11.5935, 0.0, None, false, true),
                 true)
  {
    CompleteInputRead(h);
    CompleteInputTaxes();
    CompleteInputSettlement(h);
    CompleteInputDonation();
  }
}
