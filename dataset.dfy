/** `generate_arima_ready_dataset(n_rows)` (rands.py:9-73): the eight
    columns of the generated table, assembled from the calendar axis, the
    numeric signals and the inventory loop. Every random draw and every
    sine value is an input. */
module Dataset {
  import opened Calendar
  import opened TimeAxis
  import Signals
  import Inventory
  import Rounding

  datatype Error = DateOverflow

  datatype Result<T> = Ok(value: T) | Err(error: Error)

  /** The caller-supplied draws, in the order rands.py draws them, and the
      two sine waves. */
  datatype Inputs = Inputs(
    walk: seq<real>,              // np.random.normal(0, 10, n_rows), rands.py:29
    trafficNoise: seq<real>,      // np.random.normal(0, 100, n_rows), rands.py:32
    temperatureNoise: seq<real>,  // np.random.normal(0, 2, n_rows), rands.py:35
    salesNoise: seq<real>,        // np.random.normal(0, 5, n_rows), rands.py:39
    restocks: seq<int>,           // np.random.randint(0, 100), once per row, rands.py:57
    weeklySine: seq<real>,        // np.sin(2 * np.pi * t / 7), rands.py:23
    yearlySine: seq<real>)        // np.sin(2 * np.pi * t / 365), rands.py:35

  /** One draw of every kind per row. */
  predicate Sized(x: Inputs, n: nat) {
    |x.walk| == n && |x.trafficNoise| == n && |x.temperatureNoise| == n &&
    |x.salesNoise| == n && |x.restocks| == n &&
    |x.weeklySine| == n && |x.yearlySine| == n
  }

  /** The DataFrame, column by column. The returned table holds sales and
      spend rounded to 2 decimals and temperature to 1 decimal; the model
      keeps these columns exact. */
  datatype Table = Table(
    date: seq<Date>,
    dailySalesRevenue: seq<real>,
    marketingSpend: seq<real>,
    websiteVisitors: seq<int>,
    avgTemperatureC: seq<real>,
    inventoryUnits: seq<int>,
    dayOfWeek: seq<int>,
    isWeekend: seq<int>)

  /** Every column has `n` entries. */
  predicate HasRows(t: Table, n: nat) {
    |t.date| == n && |t.dailySalesRevenue| == n && |t.marketingSpend| == n &&
    |t.websiteVisitors| == n && |t.avgTemperatureC| == n &&
    |t.inventoryUnits| == n && |t.dayOfWeek| == n && |t.isWeekend| == n
  }

  method GenerateDataset(n: nat, x: Inputs) returns (r: Result<Table>)
    requires Sized(x, n)
    ensures r.Err? <==> n > MaxRows
    ensures r.Ok? ==> HasRows(r.value, n)
    ensures r.Ok? ==> forall i :: 0 <= i < n ==>
      var t := r.value;
      Valid(t.date[i]) && Ordinal(t.date[i]) == StartOrdinal + i &&
      t.dayOfWeek[i] == (6 + i) % 7 &&
      (t.isWeekend[i] == 1 <==> t.dayOfWeek[i] >= 5) &&
      (t.isWeekend[i] == 0 <==> t.dayOfWeek[i] < 5)
    ensures r.Ok? ==> forall i :: 0 <= i < n ==>
      var t := r.value;
      t.marketingSpend[i] == Signals.InitialSpend + Signals.Sum(x.walk[..i + 1]) &&
      t.dailySalesRevenue[i] == Signals.BaseSales + 0.5 * i as real + 10.0 * x.weeklySine[i]
                                + 0.1 * t.marketingSpend[i] + x.salesNoise[i] &&
      t.avgTemperatureC[i] == 20.0 + 10.0 * x.yearlySine[i] + x.temperatureNoise[i] &&
      t.websiteVisitors[i] == Rounding.RoundHalfEven(t.marketingSpend[i] * 2.5 + x.trafficNoise[i])
    ensures r.Ok? ==>
      var t := r.value;
      t.inventoryUnits == Inventory.Column(t.dailySalesRevenue, x.restocks) &&
      forall i :: 0 <= i < n ==> t.inventoryUnits[i] >= 0
  {
    var dates := Dates(n);
    if dates.None? {
      return Err(DateOverflow);
    }
    var ds := dates.value;
    var trend := Signals.Trend(n);
    var seasonality := Signals.Seasonality(x.weeklySine);
    var spend := Signals.MarketingSpend(x.walk);
    var traffic := Signals.WebTraffic(spend, x.trafficNoise);
    var temperature := Signals.Temperature(x.yearlySine, x.temperatureNoise);
    var sales := Signals.Sales(trend, seasonality, spend, x.salesNoise);
    var dayOfWeek := DayOfWeekColumn(ds);
    var isWeekend := WeekendColumn(ds);
    var inventory := Inventory.ComputeInventory(sales, x.restocks);
    DayOfWeekCycles(n);
    WeekendIffSaturdayOrSunday(ds);
    r := Ok(Table(ds, sales, spend, Signals.Visitors(traffic), temperature, inventory, dayOfWeek, isWeekend));
  }
}
