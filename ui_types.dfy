/** The records the user interface works with. */
module UiTypes {

  import opened Statuses

  /** A lead as the interface shows it (its message history and contact date are not modelled). */
  datatype Lead = Lead(
    id: string,
    name: string,
    email: string,
    company: string,
    status: LeadStatus,
    campaignId: string,
    score: int,
    websiteUrl: string)

  /** A campaign as the interface shows it; its status is one of "Active", "Paused", "Completed". */
  datatype Campaign = Campaign(id: string, name: string, status: string, totalLeads: int, sent: int, replies: int, meetings: int)

  /** The signed-in user. */
  datatype User = User(id: string, name: string, email: string, organization: string)
}
