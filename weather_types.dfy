/**
 * The OpenWeather-shaped records the weather route answers with and the weather card
 * reads (src/types/index.ts). Numbers the code only copies are `real`s; epoch times are `int`s.
 */
module WeatherTypes {

  /** One entry of a `weather` array: condition code, first word, full text and icon URL. */
  datatype Condition = Condition(id: int, main: string, description: string, icon: string)

  /** `OpenWeatherCurrent`. */
  datatype CurrentWeather = CurrentWeather(
    temp: real,
    feelsLike: real,
    humidity: real,
    pressure: real,
    windSpeed: real,
    weather: seq<Condition>,
    name: string)

  /** `OpenWeatherForecastItem`: one day of the forecast list. */
  datatype ForecastItem = ForecastItem(dt: int, temp: real, weather: seq<Condition>, dtTxt: string)

  /** `HourlyForecastItem`. */
  datatype HourlyItem = HourlyItem(
    dt: int,
    time: string,
    temp: real,
    feelsLike: real,
    humidity: real,
    windSpeed: real,
    weather: Condition)

  /** `WeatherAlert`. */
  datatype Alert = Alert(headline: string, severity: string, event: string, desc: string, effective: string, expires: string)
}
