/** The list screen's projection and the column-index constants tied to it
    (declared in ForecastFragment, read by ForecastAdapter as well). */
module ForecastColumns {
  import opened Store

  const FORECAST_COLUMNS: seq<Column> :=
    [WeatherRowId, Date, ShortDesc, MaxTemp, MinTemp, LocationSetting,
     WeatherConditionId, CoordLat, CoordLong]

  const COL_WEATHER_ID: nat := 0
  const COL_WEATHER_DATE: nat := 1
  const COL_WEATHER_DESC: nat := 2
  const COL_WEATHER_MAX_TEMP: nat := 3
  const COL_WEATHER_MIN_TEMP: nat := 4
  const COL_LOCATION_SETTING: nat := 5
  const COL_WEATHER_CONDITION_ID: nat := 6
  const COL_COORD_LAT: nat := 7
  const COL_COORD_LONG: nat := 8

  /** A row of a cursor loaded with the list projection. */
  predicate IsForecastRow(row: Row)
  {
    Conforms(row, FORECAST_COLUMNS)
  }

  predicate AllForecastRows(c: Cursor)
  {
    forall i :: 0 <= i < |c| ==> IsForecastRow(c[i])
  }

  /** Each index constant reads, from a projected row, the record field its
      name promises. */
  lemma ForecastIndicesReadTheirFields(rec: WeatherRecord)
    ensures IsForecastRow(Project(rec, FORECAST_COLUMNS))
    ensures var row := Project(rec, FORECAST_COLUMNS);
      && row[COL_WEATHER_ID] == IntValue(rec.id)
      && row[COL_WEATHER_DATE] == IntValue(rec.date)
      && row[COL_WEATHER_DESC] == TextValue(rec.shortDesc)
      && row[COL_WEATHER_MAX_TEMP] == RealValue(rec.maxTemp)
      && row[COL_WEATHER_MIN_TEMP] == RealValue(rec.minTemp)
      && row[COL_LOCATION_SETTING] == TextValue(rec.locationSetting)
      && row[COL_WEATHER_CONDITION_ID] == IntValue(rec.conditionId)
      && row[COL_COORD_LAT] == TextValue(rec.coordLat)
      && row[COL_COORD_LONG] == TextValue(rec.coordLong)
  {
    ProjectConforms(rec, FORECAST_COLUMNS);
  }
}
