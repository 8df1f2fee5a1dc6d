/** The queryable weather store as the presentation layer sees it: joined
    weather/location records, column projections, positionally indexed cursor
    rows, the symbolic locators the weather contract builds, and the query
    descriptors handed to the loader. The store itself (content provider,
    SQL, URI strings) is not part of this model. */
module Store {
  import opened Common

  /** The store columns the list and detail projections mention. */
  datatype Column =
    | WeatherRowId        // weather._id
    | Date                // date, epoch milliseconds
    | ShortDesc
    | MaxTemp
    | MinTemp
    | Humidity
    | Pressure
    | WindSpeed
    | Degrees
    | WeatherConditionId  // weather_id, the condition code behind the icons
    | LocationSetting
    | CoordLat
    | CoordLong

  /** One cell of a cursor row. */
  datatype Value = IntValue(i: int) | RealValue(r: real) | TextValue(s: string)

  /** A weather row joined with its location row. Coordinates are kept as the
      text the cursor renders them as, since they are only ever read as text. */
  datatype WeatherRecord = WeatherRecord(
    id: int,
    date: int,
    shortDesc: string,
    maxTemp: real,
    minTemp: real,
    humidity: real,
    pressure: real,
    windSpeed: real,
    degrees: real,
    conditionId: int,
    locationSetting: string,
    coordLat: string,
    coordLong: string)

  /** A cursor row: one value per column of the projection, in its order. */
  type Row = seq<Value>

  /** A loaded result set, positioned by row index. */
  type Cursor = seq<Row>

  function Field(rec: WeatherRecord, c: Column): Value
  {
    match c
    case WeatherRowId => IntValue(rec.id)
    case Date => IntValue(rec.date)
    case ShortDesc => TextValue(rec.shortDesc)
    case MaxTemp => RealValue(rec.maxTemp)
    case MinTemp => RealValue(rec.minTemp)
    case Humidity => RealValue(rec.humidity)
    case Pressure => RealValue(rec.pressure)
    case WindSpeed => RealValue(rec.windSpeed)
    case Degrees => RealValue(rec.degrees)
    case WeatherConditionId => IntValue(rec.conditionId)
    case LocationSetting => TextValue(rec.locationSetting)
    case CoordLat => TextValue(rec.coordLat)
    case CoordLong => TextValue(rec.coordLong)
  }

  /** The cursor row the store returns for `rec` under projection `cols`. */
  function Project(rec: WeatherRecord, cols: seq<Column>): (row: Row)
    ensures |row| == |cols|
    ensures forall i :: 0 <= i < |cols| ==> row[i] == Field(rec, cols[i])
  {
    seq(|cols|, i requires 0 <= i < |cols| => Field(rec, cols[i]))
  }

  datatype Kind = IntKind | RealKind | TextKind

  function KindOf(c: Column): Kind
  {
    match c
    case WeatherRowId | Date | WeatherConditionId => IntKind
    case MaxTemp | MinTemp | Humidity | Pressure | WindSpeed | Degrees => RealKind
    case ShortDesc | LocationSetting | CoordLat | CoordLong => TextKind
  }

  predicate HasKind(v: Value, k: Kind)
  {
    match k
    case IntKind => v.IntValue?
    case RealKind => v.RealValue?
    case TextKind => v.TextValue?
  }

  /** The row has one value of the right kind for every projected column. */
  predicate Conforms(row: Row, cols: seq<Column>)
  {
    |row| == |cols| && forall i :: 0 <= i < |cols| ==> HasKind(row[i], KindOf(cols[i]))
  }

  /** Every row the store produces conforms to the projection it was asked for. */
  lemma ProjectConforms(rec: WeatherRecord, cols: seq<Column>)
    ensures Conforms(Project(rec, cols), cols)
  {
  }

  /** Cursor.getLong, getInt, getDouble, getFloat and getString on a cell of
      the kind the column holds. */
  function GetLong(row: Row, i: nat): int
    requires i < |row| && row[i].IntValue?
  {
    row[i].i
  }

  function GetDouble(row: Row, i: nat): real
    requires i < |row| && row[i].RealValue?
  {
    row[i].r
  }

  function GetString(row: Row, i: nat): string
    requires i < |row| && row[i].TextValue?
  {
    row[i].s
  }

  /** The weather contract's content locators, kept symbolic. */
  datatype Locator =
    | WeatherLocationWithDate(location: string, date: int)
    | WeatherLocationWithStartDate(location: string, startDate: int)

  datatype SortOrder = Ascending(column: Column)

  /** What a CursorLoader is created with: source, projection, selection and
      sort order (selection arguments are null everywhere in this code). */
  datatype Query = Query(
    uri: Option<Locator>,
    projection: seq<Column>,
    selection: Option<string>,
    sortOrder: Option<SortOrder>)
}
