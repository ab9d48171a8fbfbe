/**
 * The records the frontend works with: a pension fund as the generated data holds it
 * and the profile a user builds in the guided flows. Numbers are exact rationals
 * (`real`); a JSON `null` or an absent optional field is `None`.
 */
module FundTypes {
  import opened Wrappers

  datatype Isc = Isc(isc2a: Option<real>, isc5a: Option<real>, isc10a: Option<real>, isc35a: Option<real>)

  datatype Rendimenti = Rendimenti(
    ultimoAnno: Option<real>,
    ultimi3Anni: Option<real>,
    ultimi5Anni: Option<real>,
    ultimi10Anni: Option<real>,
    ultimi20Anni: Option<real>)

  /**
   * A pension fund. `fundType` is declared as 'FPN' | 'FPA' | 'PIP' and `categoria` as one
   * of six categories, but both are copied from the CSV data without a check, so they
   * are kept as free text here.
   */
  datatype Fund = Fund(
    id: string,
    fundType: string,
    societa: Option<string>,
    pip: string,
    nAlbo: int,
    linea: string,
    ramo: Option<string>,
    categoria: string,
    isc: Isc,
    costoAnnuo: Option<real>,
    rendimenti: Rendimenti,
    categoriaContratto: Option<string>,
    sitoWeb: Option<string>)

  datatype AgeRange = Under35 | From35To50 | Over50

  datatype RiskPreference = Low | Medium | High

  datatype WorkerType = Dipendente | Autonomo | Altro

  datatype UserProfile = UserProfile(
    ageRange: Option<AgeRange>,
    horizonYears: Option<real>,
    riskPreference: Option<RiskPreference>,
    workerType: Option<WorkerType>,
    hasFpn: Option<bool>,
    contractualFpnCategory: Option<string>,
    monthlyContribution: Option<real>)

  /** `{}`: the profile before the user has answered anything. */
  const EmptyProfile := UserProfile(None, None, None, None, None, None, None)

  /** `!profile.horizonYears`: the horizon is absent or zero. */
  predicate NoHorizon(p: UserProfile) {
    p.horizonYears.None? || p.horizonYears.value == 0.0
  }

  datatype EntryMode = CheckFund | ChooseFund | Learn

  /** `SortableKey`: every key of a pension fund, the five return periods, and 'selected'. */
  datatype SortKey =
    | Id | Type | Societa | Pip | NAlbo | Linea | Ramo | Categoria | IscKey | CostoAnnuo | RendimentiKey
    | UltimoAnno | Ultimi3Anni | Ultimi5Anni | Ultimi10Anni | Ultimi20Anni
    | Selected

  datatype Direction = Ascending | Descending

  datatype SortConfig = SortConfig(key: SortKey, direction: Direction)
}
