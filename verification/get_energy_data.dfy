/** Request parameters for the energy-data query: calendar days turned into
    Unix timestamps, with the interval length in minutes. */
module GetEnergyData {
  import opened Bytes
  import opened Calendar

  /** `EnergyDataInterval`. The documented alignment rules (a quarter or year
      start, at most eight days for hourly data) are not enforced by the
      client and are not modelled. */
  datatype EnergyDataInterval =
    | Hourly(startDate: NaiveDate, endDate: NaiveDate)
    | Daily(startDate: NaiveDate)
    | Monthly(startDate: NaiveDate)

  datatype Params = Params(startTimestamp: u64, endTimestamp: u64, interval: u64)

  /** `GetEnergyDataParams::new`: hourly data spans the start day's midnight
      to the end day's 23:59:59; daily and monthly data send the start day's
      midnight twice. No interval is rejected. */
  function New(interval: EnergyDataInterval): (r: Params)
    ensures interval.Hourly? ==> r.interval == 60
    ensures interval.Daily? ==> r.interval == 1440
    ensures interval.Monthly? ==> r.interval == 43200
    ensures r.startTimestamp == AsU64(DaysFromCivil(interval.startDate) * SecondsPerDay)
    ensures interval.Hourly? ==> r.endTimestamp == AsU64(Timestamp(interval.endDate, 23, 59, 59))
    ensures !interval.Hourly? ==> r.endTimestamp == r.startTimestamp
  {
    match interval
    case Hourly(startDate, endDate) =>
      Params(AsU64(Timestamp(startDate, 0, 0, 0)), AsU64(Timestamp(endDate, 23, 59, 59)), 60)
    case Daily(startDate) =>
      var timestamp := AsU64(Timestamp(startDate, 0, 0, 0));
      Params(timestamp, timestamp, 1440)
    case Monthly(startDate) =>
      var timestamp := AsU64(Timestamp(startDate, 0, 0, 0));
      Params(timestamp, timestamp, 43200)
  }

  /** From 1970 on, the start timestamp is midnight of the start day: it
      reads back as that day at 00:00:00. */
  lemma NewStartsAtStartDate(interval: EnergyDataInterval)
    requires 0 <= DaysFromCivil(interval.startDate) < 0x1_0000_0000
    ensures var r := New(interval);
      r.startTimestamp % SecondsPerDay == 0 && CivilFromDays(r.startTimestamp / SecondsPerDay) == interval.startDate
  {
    DaySplit(DaysFromCivil(interval.startDate), 0);
    CivilFromDaysFromCivil(interval.startDate);
  }

  /** From 1970 on, an hourly request ends at 23:59:59 on the end day. */
  lemma HourlyEndsAtEndDate(startDate: NaiveDate, endDate: NaiveDate)
    requires 0 <= DaysFromCivil(endDate) < 0x1_0000_0000
    ensures var r := New(Hourly(startDate, endDate));
      r.endTimestamp % SecondsPerDay == SecondsPerDay - 1 && CivilFromDays(r.endTimestamp / SecondsPerDay) == endDate
  {
    DaySplit(DaysFromCivil(endDate), SecondsPerDay - 1);
    CivilFromDaysFromCivil(endDate);
  }
}
