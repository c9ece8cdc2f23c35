/** The record shapes of shared/schema.ts and the crop-suggestion form
    validator. Timestamps are whole milliseconds; `doublePrecision` columns
    are reals; nullable columns are options. Every record keeps its `id`,
    which the store assigns. */
module Schema {
  import opened Common

  datatype User = User(id: int, username: string, password: string, fullName: string, role: string, createdAt: int)

  datatype PriceData = PriceData(id: int, cropName: string, month: int, year: int, rainfall: real, wpi: real, price: real)

  datatype RegionalData = RegionalData(
    id: int, district: string, avgWindSpeed: real, avgTemp: real, weatherPatterns: string,
    majorSoilType1: string, soil1Ph: real, soil1Nitrogen: real, soil1Phosphorus: real, soil1Potassium: real,
    majorSoilType2: Option<string>, soil2Ph: Option<real>, soil2Nitrogen: Option<real>,
    soil2Phosphorus: Option<real>, soil2Potassium: Option<real>)

  datatype CropData = CropData(
    id: int, cropName: string, tempMin: real, tempMax: real, rainfallMin: real, rainfallMax: real,
    humidityMin: real, humidityMax: real, windSpeedMin: real, windSpeedMax: real, phMin: real, phMax: real,
    nitrogen: real, phosphorus: real, potassium: real, soilTypeEncoded: int, regionEncoded: int,
    seasonEncoded: int, growingDays: int, expectedYield: string, category: string)

  /** `isAvailable`, `isActive` and `status` have database defaults, so the
      insert schemas make them optional; the in-memory store spreads the
      request as it came and fills no default in, so each is absent (None)
      when the request left it out. */
  datatype Product = Product(
    id: int, userId: int, name: string, description: string, category: string, price: real,
    unit: string, quantity: real, location: string, imageUrl: Option<string>, createdAt: int,
    isAvailable: Option<bool>)

  /** `totalShares` and `availableShares` are independent integer columns:
      nothing in the schema relates one to the other. */
  datatype Investment = Investment(
    id: int, userId: int, title: string, description: string, cropType: string,
    investmentPeriod: int, minInvestment: real, totalShares: int, availableShares: int,
    expectedReturn: real, farmExperience: int, location: string, imageUrl: Option<string>,
    createdAt: int, isActive: Option<bool>)

  datatype UserInvestment = UserInvestment(
    id: int, userId: int, investmentId: int, amount: real, shares: int, purchaseDate: int, status: Option<string>)

  /** The fields of the crop-suggestion form. */
  datatype CropSuggestionForm = CropSuggestionForm(
    district: string, soilType: string, phLevel: real, nitrogen: real, phosphorus: real, potassium: real)

  datatype FormField = District | SoilType | PhLevel | Nitrogen | Phosphorus | Potassium

  /** The constraint on field x does not hold for the form. */
  predicate Fails(f: CropSuggestionForm, x: FormField)
  {
    match x
    case District => |f.district| < 1
    case SoilType => |f.soilType| < 1
    case PhLevel => f.phLevel < 0.0 || f.phLevel > 14.0
    case Nitrogen => f.nitrogen < 0.0
    case Phosphorus => f.phosphorus < 0.0
    case Potassium => f.potassium < 0.0
  }

  /** `[x]` when the constraint on field x fails, nothing otherwise. */
  function Flag(f: CropSuggestionForm, x: FormField): (r: seq<FormField>)
    ensures forall y :: y in r <==> y == x && Fails(f, x)
  {
    if Fails(f, x) then [x] else []
  }

  /** The fields whose constraint fails, in declaration order; the validator
      reports every failing field, not only the first. */
  function FormErrors(f: CropSuggestionForm): (errs: seq<FormField>)
    ensures forall x :: x in errs <==> Fails(f, x)
  {
    Flag(f, District) + Flag(f, SoilType) + Flag(f, PhLevel)
    + Flag(f, Nitrogen) + Flag(f, Phosphorus) + Flag(f, Potassium)
  }

  /** `cropSuggestionFormSchema.safeParse`: the form is accepted exactly when
      district and soil type are non-empty, the pH lies in [0, 14] and every
      nutrient is non-negative (no upper bound). */
  function ValidateForm(f: CropSuggestionForm): (r: Result<CropSuggestionForm, seq<FormField>>)
    ensures r.Success? <==>
      f.district != "" && f.soilType != "" && 0.0 <= f.phLevel <= 14.0
      && f.nitrogen >= 0.0 && f.phosphorus >= 0.0 && f.potassium >= 0.0
    ensures r.Success? ==> r.value == f
    ensures r.Failure? ==> r.error == FormErrors(f) && |r.error| > 0
  {
    if Fails(f, District) || Fails(f, SoilType) || Fails(f, PhLevel)
      || Fails(f, Nitrogen) || Fails(f, Phosphorus) || Fails(f, Potassium)
    then Failure(FormErrors(f))
    else Success(f)
  }
}
