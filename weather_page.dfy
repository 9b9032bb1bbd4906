/**
 * The weather page: a search form and the weather card it updates. The card
 * shows sample data; a search only relabels its location and date.
 */
module WeatherPage {

  /** One day of the five-day outlook (its icon is left out). */
  datatype DayForecast = DayForecast(day: string, temp: int, desc: string)

  datatype Weather = Weather(location: string, date: string, temperature: int, condition: string,
                             humidity: int, wind: int, sunrise: string, sunset: string,
                             forecast: seq<DayForecast>)

  const MockLocation := "Bangalore, India"

  const MockForecast: seq<DayForecast> := [
    DayForecast("Mon", 28, "Partly Cloudy"),
    DayForecast("Tue", 25, "Showers"),
    DayForecast("Wed", 26, "Cloudy"),
    DayForecast("Thu", 30, "Sunny"),
    DayForecast("Fri", 22, "Cool")
  ]

  /** The sample weather; `today` is the date string taken when the page's module loads. */
  function MockWeather(today: string): (w: Weather)
    ensures w.location == MockLocation && w.date == today
    ensures |w.forecast| == 5
    ensures forall k :: 0 <= k < |w.forecast| ==> w.forecast[k].day == ["Mon", "Tue", "Wed", "Thu", "Fri"][k]
  {
    Weather(MockLocation, today, 28, "Partly Cloudy", 68, 12, "6:10 AM", "6:45 PM", MockForecast)
  }

  /** `{ ...mockWeather, location: loc || mockWeather.location, date: date || mockWeather.date }`. */
  function SearchResult(today: string, loc: string, date: string): (w: Weather)
    ensures w.location == if loc != "" then loc else MockLocation
    ensures w.date == if date != "" then date else today
    ensures w.(location := MockLocation, date := today) == MockWeather(today)
  {
    MockWeather(today).(location := if loc != "" then loc else MockLocation,
                        date := if date != "" then date else today)
  }

  /** The page's `weather` state. */
  class Page {
    const today: string
    var weather: Weather

    constructor (today: string)
      ensures this.today == today && weather == MockWeather(today)
    {
      this.today := today;
      weather := MockWeather(today);
    }

    /** `handleSearch`: the new state is built from the sample data, never from the previous state. */
    method HandleSearch(loc: string, date: string)
      modifies this
      ensures weather == SearchResult(today, loc, date)
    {
      var w := MockWeather(today);
      if loc != "" {
        w := w.(location := loc);
      }
      if date != "" {
        w := w.(date := date);
      }
      weather := w;
    }
  }

  /** The `WeatherSearch` form. */
  class SearchForm {
    var location: string
    var date: string

    constructor ()
      ensures location == "" && date == ""
    {
      location, date := "", "";
    }

    /** `disabled={!location}`. */
    predicate Disabled()
      reads this
    {
      location == ""
    }

    method SetLocation(value: string)
      modifies this
      ensures location == value && date == old(date)
    {
      location := value;
    }

    method SetDate(value: string)
      modifies this
      ensures date == value && location == old(location)
    {
      date := value;
    }

    /** The Get Weather button: searches with the form's values unless disabled. */
    method Click(page: Page)
      modifies page
      ensures Disabled() ==> page.weather == old(page.weather)
      ensures !Disabled() ==> page.weather == SearchResult(page.today, location, date)
    {
      if !Disabled() {
        page.HandleSearch(location, date);
      }
    }
  }

  /** A search with a location names it, and the outlook stays the sample one. */
  lemma SearchNamesLocation(today: string, loc: string, date: string)
    requires loc != ""
    ensures SearchResult(today, loc, date).location == loc
    ensures SearchResult(today, loc, date).forecast == MockForecast
  {
  }
}
