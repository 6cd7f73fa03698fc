/** The two elastic-CPU duration settings and the range check each one runs
    when it is set. */
module ElasticCPUSettings {

  import opened Wrappers
  import opened AdmissionTypes

  /** Bounds of the elastic-CPU grant, from the admission package:
      10ms and 100ms. Both settings default to the maximum. */
  const MinElasticCPUDuration: Duration := 10_000_000
  const MaxElasticCPUDuration: Duration := 100_000_000

  datatype DurationSetting = DurationPerExportRequest | DurationPerRangefeedScanUnit

  /** The validation error of a rejected value: which setting, which bound,
      and the value given. */
  datatype ValidationError =
    | BelowMinimum(setting: DurationSetting, minimum: Duration, got: Duration)
    | AboveMaximum(setting: DurationSetting, maximum: Duration, got: Duration)

  function CheckBounds(setting: DurationSetting, d: Duration): (r: Option<ValidationError>)
  {
    if d < MinElasticCPUDuration then Some(BelowMinimum(setting, MinElasticCPUDuration, d))
    else if d > MaxElasticCPUDuration then Some(AboveMaximum(setting, MaxElasticCPUDuration, d))
    else None
  }

  /** Validator of `kvadmission.elastic_cpu.duration_per_export_request`. */
  function ValidateDurationPerExportRequest(d: Duration): (r: Option<ValidationError>)
    ensures r.None? <==> MinElasticCPUDuration <= d <= MaxElasticCPUDuration
    ensures d < MinElasticCPUDuration ==> r == Some(BelowMinimum(DurationPerExportRequest, MinElasticCPUDuration, d))
    ensures d > MaxElasticCPUDuration ==> r == Some(AboveMaximum(DurationPerExportRequest, MaxElasticCPUDuration, d))
  {
    CheckBounds(DurationPerExportRequest, d)
  }

  /** Validator of `kvadmission.elastic_cpu.duration_per_rangefeed_scan_unit`. */
  function ValidateDurationPerRangefeedScanUnit(d: Duration): (r: Option<ValidationError>)
    ensures r.None? <==> MinElasticCPUDuration <= d <= MaxElasticCPUDuration
    ensures d < MinElasticCPUDuration ==> r == Some(BelowMinimum(DurationPerRangefeedScanUnit, MinElasticCPUDuration, d))
    ensures d > MaxElasticCPUDuration ==> r == Some(AboveMaximum(DurationPerRangefeedScanUnit, MaxElasticCPUDuration, d))
  {
    CheckBounds(DurationPerRangefeedScanUnit, d)
  }
}
