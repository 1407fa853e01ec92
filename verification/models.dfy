/** The monitoring record the report is built from, as the JSON payload describes it. */
module Models {
  import opened Wrappers

  /** One earlier monitoring result; carried in the record but never rendered. */
  datatype MonitoringHistoryItem = MonitoringHistoryItem(
    dateStatus: string,
    statusSignalLabel: string,
    description: Option<string>)

  /**
   * The report's input. `signalName` stands for the field the schema declares twice,
   * `businessSegmentLabel` for the segment the builder renders.
   */
  datatype MonitoringReportData = MonitoringReportData(
    accountInn: string,
    accountName: string,
    industry: string,
    businessSegmentLabel: string,
    signalName: string,
    description: Option<string>,
    createdBy: Option<string>,
    dateStatus: string,
    monitoringResultsHistory: Option<seq<MonitoringHistoryItem>>)
}
