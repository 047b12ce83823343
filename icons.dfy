/**
 * Weather icon lookup (weather.py, `fetch_weather_icon`): a fixed table from
 * condition descriptions to OpenWeatherMap icon codes, with "01d" (clear sky)
 * as the default, wrapped into the icon's URL.
 */
module Icons {

  const DefaultIcon: string := "01d"

  const IconMapping: map<string, string> := map[
    "clear sky" := "01d",
    "few clouds" := "02d",
    "scattered clouds" := "03d",
    "broken clouds" := "04d",
    "shower rain" := "09d",
    "rain" := "10d",
    "thunderstorm" := "11d",
    "snow" := "13d",
    "mist" := "50d"
  ]

  const UrlPrefix: string := "http://openweathermap.org/img/wn/"
  const UrlSuffix: string := "@2x.png"

  /** The icon code of a condition: its table entry, or the default. */
  function IconCode(condition: string): (code: string)
    ensures |code| == 3
    ensures code in IconMapping.Values
    ensures condition in IconMapping ==> code == IconMapping[condition]
    ensures condition !in IconMapping ==> code == DefaultIcon
  {
    if condition in IconMapping then IconMapping[condition]
    else assert IconMapping["clear sky"] == DefaultIcon; DefaultIcon
  }

  /** The icon URL: the fixed prefix, the condition's code and the fixed
      suffix; the code can be read back from it. */
  function FetchWeatherIcon(condition: string): (url: string)
    ensures |url| == |UrlPrefix| + 3 + |UrlSuffix|
    ensures url[..|UrlPrefix|] == UrlPrefix
    ensures url[|url| - |UrlSuffix|..] == UrlSuffix
    ensures CodeOfUrl(url) == IconCode(condition)
  {
    UrlPrefix + IconCode(condition) + UrlSuffix
  }

  /** Reads the icon code back out of an icon URL. */
  function CodeOfUrl(url: string): string
    requires |url| >= |UrlPrefix| + |UrlSuffix|
  {
    url[|UrlPrefix|..|url| - |UrlSuffix|]
  }

  /** The nine listed conditions map to their own codes. */
  lemma ListedIcons()
    ensures IconCode("clear sky") == "01d"
    ensures IconCode("few clouds") == "02d"
    ensures IconCode("scattered clouds") == "03d"
    ensures IconCode("broken clouds") == "04d"
    ensures IconCode("shower rain") == "09d"
    ensures IconCode("rain") == "10d"
    ensures IconCode("thunderstorm") == "11d"
    ensures IconCode("snow") == "13d"
    ensures IconCode("mist") == "50d"
  {
  }

  /** Two conditions get the same URL exactly when they get the same code. */
  lemma SameUrlIffSameCode(c: string, d: string)
    ensures FetchWeatherIcon(c) == FetchWeatherIcon(d) <==> IconCode(c) == IconCode(d)
  {
  }

  /** Any condition outside the table is shown with the clear-sky icon. */
  lemma UnlistedIsClearSky(condition: string)
    requires condition !in IconMapping
    ensures FetchWeatherIcon(condition) == FetchWeatherIcon("clear sky")
  {
  }
}
