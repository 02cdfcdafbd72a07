/**
 * The records the browser-side database layer and the spreadsheet-side script
 * write, and the replies they hand back; both sides share them.
 */
module Records {

  /** The three kinds of submission, one collection (sheet) each. */
  datatype Kind = Application | Donation | Volunteer

  /**
   * The four published metrics. `totalDonations` is a row count on one backend
   * and a sum of amounts on the other; both are integers here.
   */
  datatype Stats = Stats(totalApplications: int, totalDonations: int, totalVolunteers: int, successRate: string)

  /** `{status: 'success', data: stats}` or `{status: 'error', message}`. */
  datatype StatsReply = StatsOk(data: Stats) | StatsError(message: string)

  /** `{status: 'success', message}` or `{status: 'error', message}`. */
  datatype Reply = Success(message: string) | Error(message: string)
}
