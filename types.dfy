/** The records and enums shared by the farmer-advisory app (types.ts). Optional
    fields of the TypeScript interfaces are `Option`s; strings are `seq<char>`. */
module Types {

  datatype Option<+T> = None | Some(value: T)

  datatype UserRole = Farmer | ExtensionOfficer

  datatype Language = English | Hindi | Tamil

  datatype FarmerProfile = FarmerProfile(
    name: string,
    location: string,
    crop: string,
    stage: string,
    landSize: string)

  datatype Condition = Sunny | Rainy | Cloudy | Storm

  datatype WeatherData = WeatherData(
    temp: int,
    condition: Condition,
    humidity: int,
    forecast: string)

  datatype AlertLevel = Low | Medium | High

  /** An advisory as shown and as saved: `timestamp` is the time of the
      successful fetch, `isOfflineData` marks a result served from the cache
      or a placeholder. */
  datatype AdvisoryResponse = AdvisoryResponse(
    advisoryTitle: string,
    actionItems: seq<string>,
    alertLevel: AlertLevel,
    alertMessage: Option<string>,
    reasoning: string,
    timestamp: Option<int>,
    isOfflineData: Option<bool>)

  datatype DayPlan = DayPlan(day: string, activity: string, risk: string)

  /** A seven-day plan; `generatedAt` is present on the saved copy only. */
  datatype WeeklyPlan = WeeklyPlan(
    days: seq<DayPlan>,
    generalAdvice: string,
    generatedAt: Option<int>)

  /** The wire spelling of an alert level ('LOW' | 'MEDIUM' | 'HIGH'). */
  function AlertLevelName(level: AlertLevel): string
  {
    match level
    case Low => "LOW"
    case Medium => "MEDIUM"
    case High => "HIGH"
  }
}
