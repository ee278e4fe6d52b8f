/** The controller's quota code as it runs over its list of sites. */
module QuotaController {
  import opened Common
  import opened Sums
  import opened QuotaModel

  /** One member's account and the site documents of the controller. */
  class Controller {
    var quota: nat
    var used: nat
    var sites: map<SiteId, Site>

    constructor (quota: nat, used: nat, sites: map<SiteId, Site>)
      ensures this.quota == quota && this.used == used && this.sites == sites
    {
      this.quota, this.used, this.sites := quota, used, sites;
    }

    /** businessRemainingQuota. */
    method RemainingQuota(id: SiteId) returns (remaining: int)
      ensures remaining == Remaining(quota, used, sites, id)
    {
      if quota == 0 {
        return 0;
      }
      remaining := if quota > used then quota - used else 0;
      var todo := sites.Keys - {id};
      ghost var seen: set<SiteId> := {};
      while todo != {}
        invariant todo <= sites.Keys - {id} && seen == sites.Keys - {id} - todo
        invariant forall j :: j in seen ==> !sites[j].unlimited
        invariant 0 <= remaining == Max(0, Max(0, quota - used) - TotalReserved(sites, seen))
        invariant 0 <= TotalReserved(sites, seen)
      {
        var j :| j in todo;
        if sites[j].unlimited {
          return 0;
        }
        var reserved := Reserved(sites[j]);
        SumInsert(seen, ReservedAt(sites), j);
        if reserved >= remaining {
          RestIsReserved(sites, seen + {j}, sites.Keys - {id});
          return 0;
        }
        remaining := remaining - reserved;
        seen := seen + {j};
        todo := todo - {j};
      }
      assert seen == sites.Keys - {id};
    }

    /** coreRecords, for the member's record: whether the local core serves it, and up to which quota. */
    method CoreQuota() returns (enabled: bool, limit: int)
      ensures quota == 0 ==> enabled && limit == 0
      ensures quota > 0 ==>
                (enabled <==> (forall j :: j in sites ==> !sites[j].unlimited) && TotalReserved(sites, sites.Keys) < quota)
      ensures quota > 0 && enabled ==> limit == quota - TotalReserved(sites, sites.Keys)
    {
      if quota == 0 {
        return true, 0;
      }
      enabled, limit := true, quota;
      var reserved: int := 0;
      var todo := sites.Keys;
      ghost var seen: set<SiteId> := {};
      while todo != {}
        invariant todo <= sites.Keys && seen == sites.Keys - todo
        invariant enabled && forall j :: j in seen ==> !sites[j].unlimited
        invariant reserved == TotalReserved(sites, seen)
      {
        var j :| j in todo;
        if sites[j].unlimited {
          enabled, reserved := false, quota;
          break;
        }
        SumInsert(seen, ReservedAt(sites), j);
        reserved := reserved + Reserved(sites[j]);
        seen := seen + {j};
        todo := todo - {j};
      }
      assert enabled ==> seen == sites.Keys;
      if reserved >= quota {
        enabled := false;
      } else {
        limit := quota - reserved;
      }
    }

    /** acceptBusinessUsage: the counters and the acknowledged allocation, or nothing at all. */
    method AcceptUsage(id: SiteId, r: Report) returns (ok: bool)
      requires id in sites
      modifies this`used, this`sites
      ensures match Accept(old(used), old(sites)[id], r)
              case None => !ok && used == old(used) && sites == old(sites)
              case Some((u, v)) => ok && used == u && sites == old(sites)[id := v]
    {
      var v := sites[id];
      var total := used;
      if r.known {
        if r.meter < v.usage {
          return false;
        }
        if !v.reported && v.sent.None? && v.issued.None? {
          return false;
        }
        if total + (r.meter - v.usage) > COUNTER_LIMIT {
          return false;
        }
        total := total + (r.meter - v.usage);
      } else if total > COUNTER_LIMIT {
        return false;
      }
      if r.applied != Blank && r.applied == v.desired {
        if !r.known && (v.issued.Some? || v.unlimited || v.reported || v.sent.Some?) {
          return false;
        }
        v := v.(issued := v.sent, unlimited := v.sent == Some(0));
      }
      if r.known {
        v := v.(usage := r.meter, reported := true);
      }
      used := total;
      sites := sites[id := v];
      return true;
    }

    /** businessSnapshot. */
    method IssueSnapshot(id: SiteId, included: bool, other: nat) returns (ok: bool, grant: Option<nat>)
      requires id in sites
      modifies this`sites
      ensures match Offer(quota, used, old(sites), id, included)
              case Refused => !ok && sites == old(sites)
              case Withheld => ok && grant == None && sites == old(sites)[id := Snapshot(old(sites)[id], None, other)]
              case Granted(g) => ok && grant == Some(g) && sites == old(sites)[id := Snapshot(old(sites)[id], Some(g), other)]
    {
      var v := sites[id];
      grant := None;
      if included && v.grant.Some? && (quota == 0 || used < quota) {
        var remaining := RemainingQuota(id);
        var e := EffectiveGrant(quota, v.grant.value, v.usage, remaining);
        if e == Refused {
          return false, None;
        }
        if e.Granted? {
          grant := Some(e.quota);
        }
      }
      v := v.(desired := Of(grant, other), sent := grant);
      if grant.Some? {
        if grant.value == 0 {
          v := v.(unlimited := true);
        } else if grant.value > OrZero(v.issued) {
          v := v.(issued := grant);
        }
      }
      sites := sites[id := v];
      return true, grant;
    }
  }

  lemma RestIsReserved(sites: map<SiteId, Site>, part: set<SiteId>, ids: set<SiteId>)
    requires part <= ids
    ensures TotalReserved(sites, part) <= TotalReserved(sites, ids)
  {
    SumSuperset(part, ids, ReservedAt(sites));
  }
}
