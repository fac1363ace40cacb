/**
 The normalised weather reading the recommendation engine consumes. The
 provider lookup that produces it is not part of this model: the reading
 arrives already rounded to whole degrees and whole km/h.
 */
module Weather {

  /** One current-conditions reading. */
  datatype WeatherData = WeatherData(
    temperature: int,    // degrees Celsius, rounded
    feelsLike: int,      // degrees Celsius, rounded
    humidity: int,       // percent
    windSpeed: int,      // km/h, rounded
    description: string, // the provider's condition text, e.g. "light rain"
    icon: string,        // the provider's icon code
    precipitation: real, // millimetres in the last hour, 0 when none reported
    location: string     // "City, CountryCode"
  )
}
