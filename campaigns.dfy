/** The campaign service: owner-scoped campaign rows and their lifecycle, with execution and activity logs. */
module Campaigns {

  import opened Wrappers
  import opened Statuses
  import opened Store
  import opened Newest

  /** `NotFoundException('Campaign not found')`. */
  datatype CampaignsError = NotFound

  /** The fields an update sets; an absent name keeps the current one. */
  datatype CampaignPatch = CampaignPatch(name: Option<string>)

  /** `listForUser`: the user's campaigns, newest first. */
  function ListForUser(campaigns: seq<Campaign>, userId: string): seq<Campaign>
  {
    NewestFirst(campaigns, (c: Campaign) => c.ownerId == userId)
  }

  /** The user's campaigns and no one else's, newest first. */
  lemma ListForUserSpec(campaigns: seq<Campaign>, userId: string)
    requires CampaignIdsArePositions(campaigns)
    ensures forall c :: c in ListForUser(campaigns, userId) <==> c in campaigns && c.ownerId == userId
    ensures forall i, j :: 0 <= i < j < |ListForUser(campaigns, userId)| ==>
      ListForUser(campaigns, userId)[i].id > ListForUser(campaigns, userId)[j].id
  {
    NewestFirstMembers(campaigns, (c: Campaign) => c.ownerId == userId);
    NewestFirstOrder(campaigns, (c: Campaign) => c.ownerId == userId, (c: Campaign) => c.id);
  }

  /** `getForUser` and `ensureExists`: the campaign with this id if the user owns it. */
  function GetForUser(campaigns: seq<Campaign>, userId: string, id: nat): (r: Result<Campaign, CampaignsError>)
    requires CampaignIdsArePositions(campaigns)
    ensures r.Success? <==> exists k :: 0 <= k < |campaigns| && campaigns[k].id == id && campaigns[k].ownerId == userId
    ensures r.Success? ==> r.value in campaigns && r.value.id == id && r.value.ownerId == userId
  {
    if id < |campaigns| && campaigns[id].ownerId == userId then Success(campaigns[id]) else Failure(NotFound)
  }

  /** Another user's campaign is invisible: not listed and not found. */
  lemma OwnerScoped(campaigns: seq<Campaign>, userId: string, id: nat)
    requires CampaignIdsArePositions(campaigns)
    requires id < |campaigns| && campaigns[id].ownerId != userId
    ensures GetForUser(campaigns, userId, id) == Failure(NotFound)
    ensures campaigns[id] !in ListForUser(campaigns, userId)
  {
    ListForUserSpec(campaigns, userId);
  }

  /** The campaign service over the database it writes. */
  class CampaignsService {
    const db: Db

    constructor (db: Db)
      ensures this.db == db
    {
      this.db := db;
    }

    /** `create`: a new Active campaign owned by the user, logged as `campaign.created`. */
    method Create(userId: string, name: string) returns (c: Campaign)
      requires db.Valid()
      modifies db
      ensures db.Valid()
      ensures c == Campaign(|old(db.campaigns)|, name, Active, userId)
      ensures db.campaigns == old(db.campaigns) + [c]
      ensures db.activity == old(db.activity) + [Activity(Some(userId), "campaign.created", CampaignSubject(c.id))]
      ensures db.jobs == old(db.jobs) && db.leads == old(db.leads) && db.sources == old(db.sources)
      ensures db.executions == old(db.executions)
    {
      c := Campaign(|db.campaigns|, name, Active, userId);
      db.campaigns := db.campaigns + [c];
      db.activity := db.activity + [Activity(Some(userId), "campaign.created", CampaignSubject(c.id))];
    }

    /** `update`: NotFound unless the user owns the campaign; otherwise patch it and log `campaign.updated`. */
    method Update(userId: string, id: nat, patch: CampaignPatch) returns (r: Result<Campaign, CampaignsError>)
      requires db.Valid()
      modifies db
      ensures db.Valid()
      ensures GetForUser(old(db.campaigns), userId, id).Failure? ==> r == Failure(NotFound) && unchanged(db)
      ensures GetForUser(old(db.campaigns), userId, id).Success? ==>
        var c := old(db.campaigns)[id];
        && r == Success(c.(name := patch.name.GetOr(c.name)))
        && db.campaigns == old(db.campaigns)[id := r.value]
        && db.activity == old(db.activity) + [Activity(Some(userId), "campaign.updated", CampaignSubject(id))]
        && db.jobs == old(db.jobs) && db.leads == old(db.leads) && db.sources == old(db.sources)
        && db.executions == old(db.executions)
    {
      var found := GetForUser(db.campaigns, userId, id);
      if found.Failure? {
        return Failure(NotFound);
      }
      var c := db.campaigns[id];
      var updated := c.(name := patch.name.GetOr(c.name));
      db.campaigns := db.campaigns[id := updated];
      db.activity := db.activity + [Activity(Some(userId), "campaign.updated", CampaignSubject(id))];
      return Success(updated);
    }

    /** `pause`. */
    method Pause(userId: string, id: nat) returns (r: Result<Campaign, CampaignsError>)
      requires db.Valid()
      modifies db
      ensures db.Valid()
      ensures r.Success? ==> r.value.status == Paused
      ensures StatusChanged(old(db.campaigns), old(db.executions), old(db.activity), userId, id, Paused, r)
      ensures db.jobs == old(db.jobs) && db.leads == old(db.leads) && db.sources == old(db.sources)
    {
      r := SetStatus(userId, id, Paused);
    }

    /** `resume`. */
    method Resume(userId: string, id: nat) returns (r: Result<Campaign, CampaignsError>)
      requires db.Valid()
      modifies db
      ensures db.Valid()
      ensures r.Success? ==> r.value.status == Active
      ensures StatusChanged(old(db.campaigns), old(db.executions), old(db.activity), userId, id, Active, r)
      ensures db.jobs == old(db.jobs) && db.leads == old(db.leads) && db.sources == old(db.sources)
    {
      r := SetStatus(userId, id, Active);
    }

    /** `kill`. */
    method Kill(userId: string, id: nat) returns (r: Result<Campaign, CampaignsError>)
      requires db.Valid()
      modifies db
      ensures db.Valid()
      ensures r.Success? ==> r.value.status == Killed
      ensures StatusChanged(old(db.campaigns), old(db.executions), old(db.activity), userId, id, Killed, r)
      ensures db.jobs == old(db.jobs) && db.leads == old(db.leads) && db.sources == old(db.sources)
    {
      r := SetStatus(userId, id, Killed);
    }

    /**
     * `setStatus`: NotFound unless the user owns the campaign; otherwise
     * write the status whatever the current one is, and append one
     * lifecycle execution row and one `campaign.status_changed` activity row.
     */
    method SetStatus(userId: string, id: nat, status: CampaignStatus) returns (r: Result<Campaign, CampaignsError>)
      requires db.Valid()
      modifies db
      ensures db.Valid()
      ensures StatusChanged(old(db.campaigns), old(db.executions), old(db.activity), userId, id, status, r)
      ensures db.jobs == old(db.jobs) && db.leads == old(db.leads) && db.sources == old(db.sources)
    {
      var found := GetForUser(db.campaigns, userId, id);
      if found.Failure? {
        return Failure(NotFound);
      }
      var updated := db.campaigns[id].(status := status);
      db.campaigns := db.campaigns[id := updated];
      db.executions := db.executions + [Execution(id, "lifecycle", status, "status_change")];
      db.activity := db.activity + [Activity(Some(userId), "campaign.status_changed", CampaignStatusSubject(id, status))];
      return Success(updated);
    }

    /**
     * `setStatus` does not look at the current status: a killed campaign
     * can be resumed, and it is Active again.
     */
    method KillThenResume(userId: string, id: nat) returns (r: Result<Campaign, CampaignsError>)
      requires db.Valid()
      requires GetForUser(db.campaigns, userId, id).Success?
      modifies db
      ensures r.Success? && r.value.status == Active
    {
      var killed := Kill(userId, id);
      assert killed.Success?;
      r := Resume(userId, id);
    }

    /** The tables after `setStatus(userId, id, status)` returned `r`, given the tables before. */
    ghost predicate StatusChanged(campaigns0: seq<Campaign>, executions0: seq<Execution>, activity0: seq<Activity>,
                                  userId: string, id: nat, status: CampaignStatus, r: Result<Campaign, CampaignsError>)
      requires CampaignIdsArePositions(campaigns0)
      reads db
    {
      if GetForUser(campaigns0, userId, id).Failure? then
        && r == Failure(NotFound)
        && db.campaigns == campaigns0 && db.executions == executions0 && db.activity == activity0
      else
        && r == Success(campaigns0[id].(status := status))
        && db.campaigns == campaigns0[id := r.value]
        && db.executions == executions0 + [Execution(id, "lifecycle", status, "status_change")]
        && db.activity == activity0 + [Activity(Some(userId), "campaign.status_changed", CampaignStatusSubject(id, status))]
    }
  }
}
