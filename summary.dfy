/**
 * What the engine derives from a finished return besides the return itself:
 * the summary shown to the user (`buildSummary`), whether only the 3% share
 * can be given (`donateOnly3Percent`) and the advance payments for the next
 * year (`countPreddavky`).
 */
module ReturnSummary {
  import opened Wrappers
  import opened Money
  import opened Calculation

  /** The figures of the summary page. */
  datatype Summary = Summary(
    prijmy: real,
    zdravotnePoistne: real,
    socialnePoistne: real,
    zvyhodnenieNaManz: real,
    danovyBonusNaDieta: real,
    prispevokNaDochodkovePoist: real,
    zakladDane: real,
    danovyPreplatok: real,
    danNaUhradu: real,
    zaplatenePreddavky: real)
  {
    /** All insurance paid, health and social. */
    function zaplatenePoistneSpolu(): real { zdravotnePoistne + socialnePoistne }
  }

  /**
   * `buildSummary(form)`: income from business and employment, insurance
   * paid on both, and the main results of the return.
   */
  function BuildSummary(form: TaxForm): Summary {
    Summary(
      prijmy := form.income.t1r10_prijmy + form.income.r036,
      zdravotnePoistne := form.income.priloha3_r13_zdravotne + form.income.priloha3_r10_zdravotne,
      socialnePoistne := form.income.priloha3_r11_socialne + form.income.priloha3_r09_socialne,
      zvyhodnenieNaManz := form.taxes.r074_znizenie_partner,
      danovyBonusNaDieta := form.settlement.r117,
      prispevokNaDochodkovePoist := form.taxes.r075_zaplatene_prispevky_na_dochodok,
      zakladDane := form.r080_zaklad_dane_celkovo(),
      danovyPreplatok := form.settlement.r136_danovy_preplatok,
      danNaUhradu := form.settlement.r135_dan_na_uhradu,
      zaplatenePreddavky := form.settlement.r133)
  }

  /**
   * The summary of a calculated return: the insurance total is what the
   * business paid (deducted as expenses) plus what the employers withheld
   * (`r037`); the base is not negative; the tax due is 0 or above 5 and is
   * never shown together with an overpayment; without children there is no
   * child bonus.
   */
  lemma SummaryOfReturn(h: Helpers, u: UserInput)
    ensures var f := Calculate(h, u);
            var s := BuildSummary(f);
            s.zaplatenePoistneSpolu() == f.income.vydavkyPoistPar6ods11_ods1a2 + f.income.r037
            && 0.0 <= s.zakladDane
            && (s.danNaUhradu == 0.0 || 5.0 < s.danNaUhradu)
            && !(0.0 < s.danNaUhradu && 0.0 < s.danovyPreplatok)
            && (!u.hasChildren ==> s.danovyBonusNaDieta == 0.0)
  {
  }

  /**
   * `donateOnly3Percent(form)`: a share can be given, but 2% of the tax is
   * under the minimum, so only the 3% share (for a taxpayer who did
   * volunteer work) reaches it.
   */
  function DonateOnly3Percent(form: TaxForm): bool {
    form.donation.canDonateTwoPercentOfTax && form.donation.suma_2_percenta < Min2PercentCalculatedDonation
  }

  /**
   * On a calculated return, only the 3% share is possible exactly when the
   * tax is at least 100 and under 150; then an election of 2% gives nothing
   * and an election of 3% gives 3% of the tax.
   */
  lemma DonateOnly3PercentRange(h: Helpers, u: UserInput)
    ensures var f := Calculate(h, u);
            (DonateOnly3Percent(f) <==> 100.0 <= f.r124() < 150.0)
            && (DonateOnly3Percent(f) && u.XIIoddiel_uplatnujem2percenta && !u.splnam3per ==> f.donation.r151 == 0.0)
            && (DonateOnly3Percent(f) && u.XIIoddiel_uplatnujem2percenta && u.splnam3per ==>
                  f.donation.r151 == Percentage(f.r124(), 3))
  {
  }

  /**
   * `countPreddavky(form)`: the advance payments on next year's tax, 19% of
   * the business base `r055` spread over 12 months when the tax due is above
   * 16600, over 4 quarters when it is above 5000, and none otherwise (the
   * source returns nothing).
   */
  function CountPreddavky(form: TaxForm): (r: Option<real>)
    ensures r.Some? <==> SpodnaSadzbaPrePreddavky < form.settlement.r135_dan_na_uhradu
    ensures r.Some? ==> WholeCents(r.value)
    ensures r.Some? ==>
              var periods := if VrchnaSadzbaPrePreddavky < form.settlement.r135_dan_na_uhradu
                             then PocetMesiacov else PocetKvartalov;
              form.r055() * DanZPrijmuSadzba / periods - 0.005 <= r.value
              <= form.r055() * DanZPrijmuSadzba / periods + 0.005
    ensures r.Some? && 0.0 <= form.r055() ==> 0.0 <= r.value
  {
    if form.settlement.r135_dan_na_uhradu > VrchnaSadzbaPrePreddavky then
      Some(Round(form.r055() * DanZPrijmuSadzba / PocetMesiacov))
    else if form.settlement.r135_dan_na_uhradu > SpodnaSadzbaPrePreddavky then
      Some(Round(form.r055() * DanZPrijmuSadzba / PocetKvartalov))
    else None
  }

  /** On a calculated return the business base is not negative, so neither is any advance. */
  lemma AdvancesOfReturn(h: Helpers, u: UserInput)
    ensures var r := CountPreddavky(Calculate(h, u));
            r.Some? ==> 0.0 <= r.value
  {
  }
}
