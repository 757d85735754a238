/**
 * The database tables the services read and write, kept in memory: one
 * sequence per table, rows appended in creation order. A row's id is its
 * position, so creation order is table order and `createdAt desc` is
 * reverse table order.
 */
module Store {

  import opened Wrappers
  import opened Statuses

  /** What a failed discovery attempt records as `lastError`. */
  datatype JobError =
    | ProviderUnreachable
    | ProviderStatus(status: int)
    | PageUnreachable(url: string)

  datatype JobStatus = Pending | Completed | Failed

  /** A `discoveryJob` row. */
  datatype Job = Job(
    id: nat,
    ownerId: string,
    keyword: string,
    status: JobStatus,
    attempts: nat,
    maxAttempts: nat,
    lastError: Option<JobError>)

  /** The `maxAttempts` a job row gets when it is created. */
  const DefaultMaxAttempts: nat := 3

  /** A `lead` row; `deletedAt` holds the soft-deletion time. */
  datatype Lead = Lead(
    id: nat,
    email: string,
    name: string,
    company: string,
    websiteUrl: Option<string>,
    status: LeadStatus,
    score: int,
    campaignId: Option<string>,
    deletedAt: Option<int>)

  /** A `leadDiscoverySource` row: where and for which keyword a lead was found. */
  datatype Source = Source(leadId: nat, source: string, url: string, keyword: string)

  /** What an `activityLog` row's context refers to. */
  datatype Subject =
    | LeadSubject(leadId: nat)
    | CampaignSubject(campaignId: nat)
    | CampaignStatusSubject(campaignId: nat, status: CampaignStatus)

  /** An `activityLog` row. */
  datatype Activity = Activity(userId: Option<string>, action: string, subject: Subject)

  /** A `campaign` row. */
  datatype Campaign = Campaign(id: nat, name: string, status: CampaignStatus, ownerId: string)

  /** A `campaignExecutionLog` row; `reason` is its details' reason. */
  datatype Execution = Execution(campaignId: nat, phase: string, status: CampaignStatus, reason: string)

  /**
   * What the job rows keep between runs: attempts never pass the
   * maximum; a failed job has used them all and says why; a completed
   * job ran at least once and has no error; a pending job has an error
   * exactly when it has been attempted.
   */
  predicate JobConsistent(job: Job)
  {
    && 1 <= job.maxAttempts
    && job.attempts <= job.maxAttempts
    && match job.status
       case Pending => job.attempts < job.maxAttempts && (job.attempts == 0 <==> job.lastError.None?)
       case Completed => 1 <= job.attempts && job.lastError.None?
       case Failed => job.attempts == job.maxAttempts && job.lastError.Some?
  }

  /** A non-deleted lead with this e-mail and, unless the company is left out, this company. */
  predicate LeadMatches(l: Lead, email: string, company: Option<string>)
  {
    l.deletedAt.None? && l.email == email && (company.None? || l.company == company.value)
  }

  /**
   * `lead.findFirst` on e-mail, company and `deletedAt: null`; a company
   * of `None` is an `undefined` field, which the lookup ignores.
   */
  function FindFirstLead(leads: seq<Lead>, email: string, company: Option<string>): (r: Option<nat>)
    ensures r.Some? ==> r.value < |leads| && LeadMatches(leads[r.value], email, company)
    ensures r.Some? ==> forall k :: 0 <= k < r.value ==> !LeadMatches(leads[k], email, company)
    ensures r.None? <==> forall k :: 0 <= k < |leads| ==> !LeadMatches(leads[k], email, company)
  {
    if leads == [] then None
    else if LeadMatches(leads[0], email, company) then Some(0)
    else
      match FindFirstLead(leads[1..], email, company)
      case None => None
      case Some(k) => Some(k + 1)
  }

  /** Row ids are row positions. */
  predicate JobIdsArePositions(jobs: seq<Job>)
  {
    forall i :: 0 <= i < |jobs| ==> jobs[i].id == i
  }

  predicate LeadIdsArePositions(leads: seq<Lead>)
  {
    forall i :: 0 <= i < |leads| ==> leads[i].id == i
  }

  predicate CampaignIdsArePositions(campaigns: seq<Campaign>)
  {
    forall i :: 0 <= i < |campaigns| ==> campaigns[i].id == i
  }

  /** The database: every table the services touch. */
  class Db {
    var jobs: seq<Job>
    var leads: seq<Lead>
    var sources: seq<Source>
    var activity: seq<Activity>
    var campaigns: seq<Campaign>
    var executions: seq<Execution>

    ghost predicate Valid()
      reads this
    {
      && JobIdsArePositions(jobs)
      && LeadIdsArePositions(leads)
      && CampaignIdsArePositions(campaigns)
      && (forall i :: 0 <= i < |jobs| ==> JobConsistent(jobs[i]))
    }

    /** An empty database. */
    constructor ()
      ensures Valid()
      ensures jobs == [] && leads == [] && sources == []
      ensures activity == [] && campaigns == [] && executions == []
    {
      jobs, leads, sources := [], [], [];
      activity, campaigns, executions := [], [], [];
    }
  }
}
