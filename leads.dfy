/** The lead service: queries over the lead table, find-or-create, updates and soft deletion. */
module Leads {

  import opened Wrappers
  import opened Text
  import opened Statuses
  import opened Store
  import opened Newest

  /** `NotFoundException('Lead not found')`. */
  datatype LeadsError = NotFound

  /** `CreateLeadDto`. */
  datatype NewLead = NewLead(
    email: string,
    name: string,
    company: string,
    websiteUrl: Option<string>,
    score: Option<int>,
    campaignId: Option<string>)

  /** The fields an update sets; absent fields keep their value. */
  datatype LeadPatch = LeadPatch(
    email: Option<string>,
    name: Option<string>,
    company: Option<string>,
    websiteUrl: Option<string>,
    status: Option<LeadStatus>,
    score: Option<int>,
    campaignId: Option<string>)

  /** The `list` parameters; `take` defaults to 50 and `skip` to 0. */
  datatype ListQuery = ListQuery(skip: Option<nat>, take: Option<nat>, campaignId: Option<string>)

  const DefaultTake: nat := 50

  /** A lead `list` may return: not deleted and, for a non-empty campaign id, in that campaign. */
  predicate Listed(l: Lead, campaignId: Option<string>)
  {
    l.deletedAt.None? && (campaignId.None? || campaignId.value == [] || l.campaignId == campaignId)
  }

  /** The listed leads, newest first. */
  function Visible(leads: seq<Lead>, campaignId: Option<string>): seq<Lead>
  {
    NewestFirst(leads, l => Listed(l, campaignId))
  }

  /** `list`: skip `skip` of the visible leads, then return at most `take`. */
  function List(leads: seq<Lead>, q: ListQuery): (r: seq<Lead>)
    ensures var vis, skip, take := Visible(leads, q.campaignId), q.skip.GetOr(0), q.take.GetOr(DefaultTake);
      && |r| <= take
      && (|vis| <= skip ==> r == [])
      && (skip < |vis| ==> skip + |r| <= |vis| && r == vis[skip..skip + |r|])
      && (|r| < take ==> skip + |r| >= |vis|)
  {
    var vis := Visible(leads, q.campaignId);
    var skip := if q.skip.Some? then q.skip.value else 0;
    var take := if q.take.Some? then q.take.value else DefaultTake;
    if |vis| <= skip then [] else if |vis| - skip <= take then vis[skip..] else vis[skip..skip + take]
  }

  /**
   * What `list` returns: leads that are not deleted and belong to the
   * requested campaign (when one is given), newest first.
   */
  lemma ListSpec(leads: seq<Lead>, q: ListQuery)
    requires LeadIdsArePositions(leads)
    ensures forall l :: l in List(leads, q) ==> l in leads && Listed(l, q.campaignId)
    ensures forall i, j :: 0 <= i < j < |List(leads, q)| ==> List(leads, q)[i].id > List(leads, q)[j].id
    ensures q.skip.GetOr(0) == 0 && |Visible(leads, q.campaignId)| <= q.take.GetOr(DefaultTake) ==>
      forall l :: l in leads && Listed(l, q.campaignId) ==> l in List(leads, q)
  {
    var keep := (l: Lead) => Listed(l, q.campaignId);
    var vis := Visible(leads, q.campaignId);
    assert vis == NewestFirst(leads, keep);
    NewestFirstMembers(leads, keep);
    NewestFirstOrder(leads, keep, (l: Lead) => l.id);
    var r := List(leads, q);
    var skip := q.skip.GetOr(0);
    if skip < |vis| {
      WindowKeeps(vis, r, skip);
      if skip == 0 && |vis| <= q.take.GetOr(DefaultTake) {
        assert |r| == |vis|;
        assert vis[0..|vis|] == vis;
      }
    }
  }

  /** A window of a newest-first sequence holds some of its leads, still newest first. */
  lemma WindowKeeps(vis: seq<Lead>, w: seq<Lead>, skip: nat)
    requires skip + |w| <= |vis| && w == vis[skip..skip + |w|]
    ensures forall l :: l in w ==> l in vis
    ensures (forall i, j :: 0 <= i < j < |vis| ==> vis[i].id > vis[j].id) ==>
      forall i, j :: 0 <= i < j < |w| ==> w[i].id > w[j].id
  {
    forall l | l in w
      ensures l in vis
    {
      var i :| 0 <= i < |w| && w[i] == l;
      assert l == vis[skip + i];
    }
    if forall i, j :: 0 <= i < j < |vis| ==> vis[i].id > vis[j].id {
      forall i, j | 0 <= i < j < |w|
        ensures w[i].id > w[j].id
      {
        assert w[i] == vis[skip + i] && w[j] == vis[skip + j];
      }
    }
  }

  /** `get` and `ensureExists`: the lead with this id unless it is missing or soft-deleted. */
  function Get(leads: seq<Lead>, id: nat): (r: Result<Lead, LeadsError>)
    requires LeadIdsArePositions(leads)
    ensures r.Success? <==> exists k :: 0 <= k < |leads| && leads[k].id == id && leads[k].deletedAt.None?
    ensures r.Success? ==> r.value in leads && r.value.id == id && r.value.deletedAt.None?
  {
    if id < |leads| && leads[id].deletedAt.None? then Success(leads[id]) else Failure(NotFound)
  }

  /** `scoreLead`: 50, +10 for a `.io` website, +5 for a company mentioning "labs", clamped to 0..100. */
  function ScoreLead(websiteUrl: Option<string>, company: string): (r: int)
    ensures r == 50 || r == 55 || r == 60 || r == 65
    ensures r >= 60 <==> websiteUrl.Some? && Contains(websiteUrl.value, ".io")
    ensures (r == 55 || r == 65) <==> Contains(Lower(company), "labs")
  {
    var score := 50;
    var score := if websiteUrl.Some? && websiteUrl.value != [] && Contains(websiteUrl.value, ".io") then score + 10 else score;
    var score := if Contains(Lower(company), "labs") then score + 5 else score;
    Clamp(score, 0, 100)
  }

  /** `Math.max(lo, Math.min(hi, x))`. */
  function Clamp(x: int, lo: int, hi: int): (r: int)
    requires lo <= hi
    ensures lo <= r <= hi
    ensures lo <= x <= hi ==> r == x
  {
    if x < lo then lo else if x > hi then hi else x
  }

  /** The row `create` inserts: status New and the given score (an explicit 0 included), else the computed one. */
  function CreatedLead(id: nat, p: NewLead): (l: Lead)
    ensures l.id == id && l.email == p.email && l.company == p.company && l.deletedAt.None?
    ensures l.status == New && l.score == (if p.score.Some? then p.score.value else ScoreLead(p.websiteUrl, p.company))
  {
    Lead(id, p.email, p.name, p.company, p.websiteUrl, New,
         if p.score.Some? then p.score.value else ScoreLead(p.websiteUrl, p.company),
         p.campaignId, None)
  }

  /** The lead after an update: patched fields replaced, the others kept. */
  function ApplyPatch(l: Lead, p: LeadPatch): (r: Lead)
    ensures r.id == l.id && r.deletedAt == l.deletedAt
    ensures r.email == (if p.email.Some? then p.email.value else l.email)
    ensures r.name == (if p.name.Some? then p.name.value else l.name)
    ensures r.company == (if p.company.Some? then p.company.value else l.company)
    ensures r.websiteUrl == (if p.websiteUrl.Some? then p.websiteUrl else l.websiteUrl)
    ensures r.status == (if p.status.Some? then p.status.value else l.status)
    ensures r.score == (if p.score.Some? then p.score.value else l.score)
    ensures r.campaignId == (if p.campaignId.Some? then p.campaignId else l.campaignId)
    ensures p == LeadPatch(None, None, None, None, None, None, None) ==> r == l
  {
    l.(email := p.email.GetOr(l.email),
       name := p.name.GetOr(l.name),
       company := p.company.GetOr(l.company),
       websiteUrl := if p.websiteUrl.Some? then p.websiteUrl else l.websiteUrl,
       status := p.status.GetOr(l.status),
       score := p.score.GetOr(l.score),
       campaignId := if p.campaignId.Some? then p.campaignId else l.campaignId)
  }

  /** The lead table after soft-deleting row `id` at time `now`. */
  function SoftDeleted(leads: seq<Lead>, id: nat, now: int): (r: seq<Lead>)
    requires id < |leads|
    ensures |r| == |leads| && r[id].deletedAt == Some(now)
    ensures r[id] == leads[id].(deletedAt := Some(now))
    ensures forall k :: 0 <= k < |leads| && k != id ==> r[k] == leads[k]
  {
    leads[id := leads[id].(deletedAt := Some(now))]
  }

  /**
   * After a soft delete the lead is gone for every reader: `get` fails,
   * `list` omits it, and the find-or-create lookup no longer returns it,
   * so a `create` with the same key inserts a fresh lead.
   */
  lemma SoftDeleteHides(leads: seq<Lead>, id: nat, now: int, q: ListQuery, email: string, company: string)
    requires LeadIdsArePositions(leads) && id < |leads|
    ensures LeadIdsArePositions(SoftDeleted(leads, id, now))
    ensures Get(SoftDeleted(leads, id, now), id) == Failure(NotFound)
    ensures forall l :: l in List(SoftDeleted(leads, id, now), q) ==> l.id != id
    ensures FindFirstLead(SoftDeleted(leads, id, now), email, Some(company)) != Some(id)
    ensures (forall k :: 0 <= k < |leads| && k != id ==> !LeadMatches(leads[k], email, Some(company))) ==>
      FindFirstLead(SoftDeleted(leads, id, now), email, Some(company)).None?
  {
    var after := SoftDeleted(leads, id, now);
    ListSpec(after, q);
    forall l | l in List(after, q)
      ensures l.id != id
    {
      var k :| 0 <= k < |after| && after[k] == l;
    }
  }

  /** The lead service over the database it writes. */
  class LeadsService {
    const db: Db

    constructor (db: Db)
      ensures this.db == db
    {
      this.db := db;
    }

    /**
     * `create`: return the first non-deleted lead with the same e-mail and
     * company, writing nothing; otherwise insert a new lead and log
     * `lead.created`.
     */
    method Create(payload: NewLead) returns (r: Lead)
      requires db.Valid()
      modifies db
      ensures db.Valid()
      ensures var found := FindFirstLead(old(db.leads), payload.email, Some(payload.company));
        found.Some? ==> r == old(db.leads)[found.value] && unchanged(db)
      ensures var found := FindFirstLead(old(db.leads), payload.email, Some(payload.company));
        found.None? ==>
          && r == CreatedLead(|old(db.leads)|, payload)
          && db.leads == old(db.leads) + [r]
          && db.activity == old(db.activity) + [Activity(None, "lead.created", LeadSubject(r.id))]
          && db.jobs == old(db.jobs) && db.sources == old(db.sources)
          && db.campaigns == old(db.campaigns) && db.executions == old(db.executions)
    {
      var existing := FindFirstLead(db.leads, payload.email, Some(payload.company));
      if existing.Some? {
        return db.leads[existing.value];
      }
      var score := if payload.score.Some? then payload.score.value else ScoreLead(payload.websiteUrl, payload.company);
      r := Lead(|db.leads|, payload.email, payload.name, payload.company, payload.websiteUrl, New, score, payload.campaignId, None);
      db.leads := db.leads + [r];
      db.activity := db.activity + [Activity(None, "lead.created", LeadSubject(r.id))];
    }

    /** `update`: a missing or deleted lead is NotFound; otherwise patch it and log `lead.updated`. */
    method Update(id: nat, patch: LeadPatch) returns (r: Result<Lead, LeadsError>)
      requires db.Valid()
      modifies db
      ensures db.Valid()
      ensures Get(old(db.leads), id).Failure? ==> r == Failure(NotFound) && unchanged(db)
      ensures Get(old(db.leads), id).Success? ==>
        && db.leads == old(db.leads)[id := ApplyPatch(old(db.leads)[id], patch)]
        && r == Success(db.leads[id])
        && db.activity == old(db.activity) + [Activity(None, "lead.updated", LeadSubject(id))]
        && db.jobs == old(db.jobs) && db.sources == old(db.sources)
        && db.campaigns == old(db.campaigns) && db.executions == old(db.executions)
    {
      var found := Get(db.leads, id);
      if found.Failure? {
        return Failure(NotFound);
      }
      var updated := ApplyPatch(db.leads[id], patch);
      db.leads := db.leads[id := updated];
      db.activity := db.activity + [Activity(None, "lead.updated", LeadSubject(updated.id))];
      return Success(updated);
    }

    /** `softDelete`: a missing or deleted lead is NotFound; otherwise stamp `deletedAt` and log `lead.deleted`. */
    method SoftDelete(id: nat, now: int) returns (r: Result<(), LeadsError>)
      requires db.Valid()
      modifies db
      ensures db.Valid()
      ensures Get(old(db.leads), id).Failure? ==> r == Failure(NotFound) && unchanged(db)
      ensures Get(old(db.leads), id).Success? ==>
        && r == Success(())
        && db.leads == SoftDeleted(old(db.leads), id, now)
        && db.activity == old(db.activity) + [Activity(None, "lead.deleted", LeadSubject(id))]
        && db.jobs == old(db.jobs) && db.sources == old(db.sources)
        && db.campaigns == old(db.campaigns) && db.executions == old(db.executions)
    {
      var found := Get(db.leads, id);
      if found.Failure? {
        return Failure(NotFound);
      }
      db.leads := SoftDeleted(db.leads, id, now);
      db.activity := db.activity + [Activity(None, "lead.deleted", LeadSubject(id))];
      return Success(());
    }
  }
}
