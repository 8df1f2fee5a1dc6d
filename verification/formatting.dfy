/** The formatting helpers the presentation layer calls into (the app's
    Utility class and string resources). Their definitions are not part of
    this model: each is a function value supplied by the caller, so every
    property proved here holds whatever they compute. */
module Formatting {

  datatype Formatter = Formatter(
    formatDate: int -> string,              // Utility.formatDate
    friendlyDay: int -> string,             // Utility.getFriendlyDayString
    dayName: int -> string,                 // Utility.getDayName
    monthDay: int -> string,                // Utility.getFormattedMonthDay
    temperature: (real, bool) -> string,    // Utility.formatTemperature(value, isMetric)
    wind: (real, real) -> string,           // Utility.getFormattedWind(speed, degrees)
    humidity: real -> string,               // the format_humidity string resource
    pressure: real -> string,               // the format_pressure string resource
    showDouble: real -> string)             // how "%s" renders a double

  /** The two icon families of the weather-condition icon mapping. */
  datatype Icon =
    | ArtIcon(conditionId: int)     // Utility.getArtResourceForWeatherCondition
    | SmallIcon(conditionId: int)   // Utility.getIconResourceForWeatherCondition
}
