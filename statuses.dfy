/** The status vocabularies shared by the back end and the user interface. */
module Statuses {

  /** `LeadStatus`, with the display text of each value. */
  datatype LeadStatus = New | Contacted | Replied | Interested | NotInterested | MeetingBooked

  function LeadStatusText(s: LeadStatus): string
  {
    match s
    case New => "New"
    case Contacted => "Contacted"
    case Replied => "Replied"
    case Interested => "Interested"
    case NotInterested => "Not Interested"
    case MeetingBooked => "Meeting Booked"
  }

  /** The campaign lifecycle states the service writes. */
  datatype CampaignStatus = Active | Paused | Killed
}
