# Rolling 24-hour weather history, modelled in Dafny

This project models the data-keeping core of a small weather dashboard. On every refresh, `display_weather` does the following:

1. It fetches the current reading for a city.
2. It appends a data point (timestamp, Kelvin temperature, condition description) to that city's JSON history file.
3. It drops every point that is not newer than 24 hours before now, and overwrites the file with what is left.
4. It summarises the remaining window: the maximum, minimum and mean temperature in the chosen display unit, and the most frequent condition. The dominant condition also picks an icon URL.

Modules, one file each:

- `Units` (units.dfy) is `convert_temperature`: Kelvin to Celsius, Fahrenheit, or unchanged. It is computed over `real`.
- `Icons` (icons.dfy) is `fetch_weather_icon`: a nine-entry table with the default code `01d`, wrapped into the icon URL.
- `History` (history.dfy) holds the stored point `Sample(timestamp, tempK, condition)`, the file key `CityKey` (the lower-cased city name) and `clean_old_data` as `CleanOldData`. Timestamps are integer seconds. The window is `24 * 60 * 60` seconds.
- `Statistics` (statistics.dfy) is `calculate_statistics`. It returns `None` for an empty window and `Some(WindowStats(...))` otherwise.
- `Store` (store.dfy) holds the class `WeatherStore`. Its field `files` maps each file key to the list stored in that file, and a missing key reads as the empty list. Its members are `Load`, `SaveWeatherData` (append at the tail), `CleanStoredData` (load, clean, overwrite), `RecordAndClean` (the append followed by the clean-up) and `DisplayWeather` (the whole update sequence).
- `Wrappers` (wrappers.dfy) holds the `Option` type.

The clock and the weather API are parameters of `DisplayWeather`. The source reads the clock twice: once to stamp the new point (weather.py:93) and once to compute the cutoff (weather.py:48). The model therefore takes two instants, `stampTime` and `cleanTime`.

## Model

| member | source | states |
|---|---|---|
| Units.ConvertTemperature | utils.py:10-16 | for "Celsius" the Kelvin value is the result plus 273.15; for "Fahrenheit" it is `(result - 32) * 5 / 9 + 273.15`; any other name returns the Kelvin value unchanged |
| Units.ConvertIsAffine | utils.py:10-16 | every unit branch is the affine map `Scale(unit) * t + Offset(unit)` with a positive slope |
| Units.CelsiusIsKelvinMinusOffset | utils.py:11-12 | for "Celsius" the result is `tempK - 273.15` |
| Units.FahrenheitFromKelvin | utils.py:13-14 | for "Fahrenheit" the result is `(tempK - 273.15) * 9 / 5 + 32` |
| Units.FahrenheitFromCelsius | utils.py:12-14 | the Fahrenheit reading equals the Celsius reading times 9/5 plus 32 |
| Units.OtherUnitsAreIdentity | utils.py:15-16 | any other unit name, "Kelvin" included, returns the input unchanged |
| Units.ConvertStrictlyIncreasing | utils.py:10-16 | for every unit, a lower Kelvin value converts to a strictly lower value |
| Units.ConvertMonotone | utils.py:10-16 | `t <= u` holds exactly when the converted values are in the same order |
| Units.ConvertRoundTrip | utils.py:10-16 | converting to a unit and back with the inverse affine map gives the Kelvin value again |
| Icons.IconCode | weather.py:67-78 | the code is a listed condition's table entry, or "01d" for any other string; it always has three characters and is one of the table's codes |
| Icons.FetchWeatherIcon | weather.py:78-79 | the URL is the prefix `http://openweathermap.org/img/wn/`, the condition's three-character icon code and `@2x.png`; the code read back from the URL is the condition's code |
| Icons.ListedIcons | weather.py:67-77 | each of the nine listed conditions maps to its own code |
| Icons.SameUrlIffSameCode | weather.py:78-79 | two conditions get the same URL exactly when they get the same code |
| Icons.UnlistedIsClearSky | weather.py:78 | a condition outside the table gets the clear-sky icon URL |
| History.CityKey | weather.py:25 | the key has the name's length; each upper-case ASCII letter becomes its lower-case letter, every other character is unchanged (nothing is trimmed), and no upper-case ASCII letter remains |
| History.CityKeyIdempotent | weather.py:25 | lower-casing a key again leaves it unchanged |
| History.CityKeyIgnoresCase | weather.py:25 | two names that differ only in ASCII letter case get the same file key |
| History.Cutoff | weather.py:48 | the cutoff lies exactly 24 hours (86400 s) before `now` |
| History.IsRecent | weather.py:49 | a point is kept exactly when it is less than 86400 s older than `now`; a point stamped at or after `now` is always kept |
| History.CleanOldData | weather.py:47-49 | a point is kept exactly when it is in the input and its timestamp is strictly later than `now - 24h`; the result is never longer than the input |
| History.CleanKeepsExactlyRecent | weather.py:48-49 | a point of the input survives exactly when its timestamp is greater than the cutoff; a point exactly at the cutoff is dropped |
| History.CleanIsSubsequence | weather.py:49 | the cleaned list is an order-preserving subsequence of the input |
| History.CleanIdempotent | weather.py:47-49 | cleaning twice at the same instant gives the same list as cleaning once |
| History.CleanLaterAbsorbs | weather.py:47-49 | cleaning at a later instant after an earlier one equals cleaning once at the later instant, so a dropped point never returns |
| History.CleanAppend | weather.py:49 | cleaning a list with a point appended is the cleaned list, followed by the point exactly when the point is recent |
| Statistics.ConvertedTemps | weather.py:56 | one temperature per point, in list order: entry i is point i's Kelvin value converted to the unit |
| Statistics.Conditions | weather.py:57 | one condition per point, in list order: entry i is point i's condition |
| Statistics.MaxOf | weather.py:58 | the maximum is an element of the list and no element exceeds it |
| Statistics.MinOf | weather.py:59 | the minimum is an element of the list and no element is below it |
| Statistics.Count | weather.py:61 | the count is the number of occurrences of the condition (its multiplicity in the list), at most the length, and positive exactly when the condition occurs |
| Statistics.MostFrequentAmong | weather.py:61 | the chosen candidate is one of the candidates, and no candidate occurs more often |
| Statistics.DominantCondition | weather.py:61 | the dominant condition occurs in the list, and no string occurs more often |
| Statistics.CalculateStatistics | weather.py:53-62 | all absent exactly when the window is empty; otherwise max and min are converted temperatures that bound all of them, the mean is their sum over their count and lies between min and max, and the dominant condition occurs and is not outnumbered |
| Statistics.SumIsLeftToRight | weather.py:60 | the sum used by the model equals Python's `sum`, which adds the values one by one from the left starting at 0 |
| Statistics.Mean | weather.py:60 | the mean of a non-empty list lies between its minimum and its maximum |
| Statistics.SumBetween | weather.py:60 | a sum of n values in `[lo, hi]` lies in `[n * lo, n * hi]` |
| Statistics.MeanBetween | weather.py:60 | the mean of values in `[lo, hi]` lies in `[lo, hi]` |
| Statistics.KelvinTempsAreRaw | weather.py:56 | with the unit "Kelvin" the converted temperatures are the stored Kelvin values |
| Statistics.SumConverted | weather.py:56-60 | the sum of the converted temperatures is the affine image of the Kelvin sum |
| Statistics.ConvertedMax | weather.py:56-58 | the largest converted temperature is the converted largest Kelvin temperature |
| Statistics.ConvertedMin | weather.py:56-59 | the smallest converted temperature is the converted smallest Kelvin temperature |
| Statistics.ConvertedMean | weather.py:56-60 | the mean of the converted temperatures is the converted Kelvin mean |
| Statistics.AverageOfConverted | utils.py:10-16 | a total of converted values divided by their number is the conversion of the Kelvin total divided by that number |
| Statistics.StatisticsCommuteWithConversion | weather.py:53-62 | the statistics in any unit are the Kelvin statistics converted, and the dominant condition is the same |
| Statistics.ExampleWindow | weather.py:53-62 | Kelvin values 10, 20, 30 with conditions rain, clear, rain give max 30, min 10, mean 20 and "rain" |
| Store.WeatherStore.constructor | weather.py:9-13 | the store starts with the history files already in the data directory, unchanged |
| Store.WeatherStore.Load | weather.py:36-43 | the list stored under the lower-cased name, or the empty list when there is none |
| Store.WeatherStore.SaveWeatherData | weather.py:24-32 | the city's list, empty when it has no file, becomes the old list plus the new point at the tail; its length grows by one, the earlier points are unchanged, and other cities are untouched |
| Store.WeatherStore.CleanStoredData | weather.py:104-110 | the city's file is overwritten with its cleaned list, which is also returned: an order-preserving subsequence holding exactly the old points newer than the cutoff; other cities are untouched |
| Store.WeatherStore.RecordAndClean | weather.py:102-110 | the city's list becomes the clean-up of the old list with the new point appended, and that list is returned; when the new point is recent it is the list's last element |
| Store.WeatherStore.DisplayWeather | weather.py:84-148 | no API data: an error report and no file changes. Otherwise the new point stamped with the first clock reading is appended and the list is cleaned at the second reading. The report carries that point, its converted temperature, the statistics of the stored window and the dominant condition's icon URL. When under 24h separate the readings, the statistics are present, the new point is last, and its temperature lies between min and max |
| Store.NewestWithinExtrema | weather.py:56-59 | when the window's last point is the new one, its converted temperature lies between the window's min and max |
| Store.NewPointSurvives | weather.py:93-113 | a point stamped later than the cutoff survives cleaning, stays last, and makes the statistics present |
| Store.TwoRecordsCleanOnce | weather.py:102-110 | two successive refreshes at non-decreasing instants leave the same list as one clean-up of both appended points at the later instant |

## Left out

- The weather API call (`fetch_weather`, weather.py:17-20) and the API key check (`check_api_key`, utils.py:4-7) are network clients. Their result enters `DisplayWeather` as the parameter `fetched`.
- File and directory I/O is not modelled: creating the data directory when it is missing (weather.py:12-13) and reading and writing JSON (weather.py:27-32, 38-41, 108-110). The directory is the in-memory map `files`, which starts as the files already on disk.
- The clock (`datetime.utcnow()`) and ISO-8601 parsing are not modelled. Instants are integer seconds passed in as parameters.
- Floating-point rounding is not modelled. Conversions and the mean are exact `real` arithmetic.
- The Streamlit layout, the bar chart, the text output and the threshold alerts are not modelled (weather.py:121-173). The whole of app.py is left out too.
- Only the current temperature is converted for display; feels-like and the API's min and max (weather.py:90-92, 117-119) are display-only and left out.
- History.CityKey: lower-cases ASCII letters only. Python's `str.lower` also folds non-ASCII letters.
- Statistics.DominantCondition: the source breaks ties in the iteration order of a Python `set`, which the model cannot reproduce. The model chooses some most frequent condition, and only that maximality is stated and proved.
- The window keeps only points strictly newer than the cutoff; a point exactly at the cutoff is dropped.
- New points always go at the tail of the list, never at a sorted position, so a point with an earlier stamp can follow one with a later stamp.
- The code has no per-city lock, no atomic file replacement and no persistence-error kind, so the model has none either.
- The city key is `city.lower()`; nothing is trimmed.
