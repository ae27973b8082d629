/** server/src/turn.ts as it runs: the module's mutable state and the loops that edit it in place. */
module TurnEngine {

  import opened Common
  import opened Sums
  import opened TurnState

  // ----- loops over entries -----

  lemma PrefixStep<T>(s: seq<T>, i: nat)
    requires i < |s|
    ensures s[..i + 1][..i] == s[..i] && s[..i + 1][i] == s[i] && |s[..i + 1]| == i + 1
  {
  }

  function Among<K, V>(m: map<K, V>, keys: seq<K>): map<K, V> {
    map k | k in m && k in keys :: m[k]
  }

  /** Adding up the values of distinct keys one by one adds up the map. */
  lemma AmongNext<K>(m: map<K, int>, keys: seq<K>, i: nat)
    requires i < |keys| && keys[i] in m && keys[i] !in keys[..i]
    ensures Total(Among(m, keys[..i + 1])) == Total(Among(m, keys[..i])) + m[keys[i]]
  {
    var before, after := Among(m, keys[..i]), Among(m, keys[..i + 1]);
    assert keys[..i + 1] == keys[..i] + [keys[i]];
    TotalWithout(after, keys[i]);
    assert after - {keys[i]} == before;
  }

  class TurnModule {
    var monthlyUsage: Usage
    var activeCredentials: map<string, Ref>
    var records: map<Ref, Cred>
    var ipIssuanceHistory: seq<Issue>
    var denyList: map<DenyKey, Deny>
    var ipByteLedger: seq<Row>
    var credentialCache: map<string, Cached>
    var inFlightIssues: map<string, nat>
    ghost var log: Log
    const cfg: Config

    ghost function Abstract(): Turn
      reads this
    {
      Turn(monthlyUsage, activeCredentials, records, ipIssuanceHistory, denyList, ipByteLedger, credentialCache,
           inFlightIssues, log)
    }

    constructor (cfg: Config, t: Turn)
      ensures Abstract() == t && this.cfg == cfg
    {
      this.cfg := cfg;
      monthlyUsage, activeCredentials, records, ipIssuanceHistory := t.usage, t.active, t.creds, t.history;
      denyList, ipByteLedger, credentialCache, inFlightIssues, log := t.deny, t.ledger, t.cache, t.inFlight, t.log;
    }

    method RollMonthIfNeeded(month: int)
      modifies this
      ensures Abstract() == RollMonth(old(Abstract()), month)
    {
      if monthlyUsage.month != month {
        monthlyUsage := FreshMonth(month);
        log := log.(resets := log.resets + 1, clears := log.clears + 1);
      }
    }

    method PruneIssuanceHistory(now: int)
      modifies this
      ensures Abstract() == PruneHistory(old(Abstract()), now)
    {
      var rows := ipIssuanceHistory;
      var kept: seq<Issue> := [];
      for i := 0 to |rows|
        invariant kept == IssuesFrom(rows[..i], now - HOUR_MS)
        invariant Abstract() == old(Abstract())
      {
        PrefixStep(rows, i);
        if rows[i].issuedAt >= now - HOUR_MS {
          kept := kept + [rows[i]];
        }
      }
      assert rows[..|rows|] == rows;
      ipIssuanceHistory := kept;
      log := log.(pruned := Max(log.pruned, now - HOUR_MS));
    }

    method PruneIpByteLedger(now: int)
      modifies this
      ensures Abstract() == PruneLedger(old(Abstract()), now)
    {
      var rows := ipByteLedger;
      var kept: seq<Row> := [];
      for i := 0 to |rows|
        invariant kept == RowsFrom(rows[..i], now - HOUR_MS)
        invariant Abstract() == old(Abstract())
      {
        PrefixStep(rows, i);
        if rows[i].at >= now - HOUR_MS {
          kept := kept + [rows[i]];
        }
      }
      assert rows[..|rows|] == rows;
      ipByteLedger := kept;
    }

    /** `keys` lists the entries as they were when the loop started. */
    method PruneDenials(keys: seq<DenyKey>, now: int)
      requires forall key :: key in denyList ==> key in keys
      modifies this`denyList
      ensures Abstract() == PruneDenyList(old(Abstract()), now)
    {
      for i := 0 to |keys|
        invariant forall key ::
                    key in denyList <==> key in old(denyList) && (key in keys[..i] ==> old(denyList)[key].until > now)
        invariant forall key :: key in denyList ==> denyList[key] == old(denyList)[key]
      {
        assert keys[..i + 1] == keys[..i] + [keys[i]];
        if keys[i] in denyList && denyList[keys[i]].until <= now {
          denyList := denyList - {keys[i]};
        }
      }
      assert keys[..|keys|] == keys;
      assert denyList == PruneDenyList(old(Abstract()), now).deny;
    }

    method SettleCredentialUsage(ref: Ref, observed: nat, now: int)
      requires ref in records
      modifies this
      ensures Abstract() == Settle(old(Abstract()), ref, observed, now)
    {
      var c := records[ref];
      if c.settled {
        return;
      }
      var bytes: nat := Max(observed, c.cfActual);
      if bytes > 0 {
        ipByteLedger := ipByteLedger + [Row(c.ip, bytes, now, ref)];
        log := log.(written := log.written + [ref]);
      }
      records := records[ref := c.(cfActual := bytes, settled := true)];
    }

    method DropEntry(cid: string, ghost why: Reason)
      modifies this
      ensures Abstract() == Remove(old(Abstract()), cid, why)
    {
      if cid in activeCredentials {
        log := log.(gone := log.gone[activeCredentials[cid] := why]);
      }
      activeCredentials := activeCredentials - {cid};
      credentialCache := credentialCache - {cid};
    }

    method PruneActiveCredentials(cids: seq<string>, now: int)
      requires Closed(Abstract())
      modifies this
      ensures Abstract() == Expire(old(Abstract()), cids, now)
    {
      for i := 0 to |cids|
        invariant Closed(Abstract())
        invariant Abstract() == Expire(old(Abstract()), cids[..i], now)
      {
        PrefixStep(cids, i);
        ghost var before := Abstract();
        var cid := cids[i];
        if cid in activeCredentials && records[activeCredentials[cid]].expiresAt < now {
          SettleCredentialUsage(activeCredentials[cid], 0, now);
          DropEntry(cid, Expired);
        }
        assert Abstract() == ExpireOne(before, cid, now);
      }
      assert cids[..|cids|] == cids;
    }

    method MarkRevokePending(ref: Ref, now: int)
      requires ref in records
      modifies this`records
      ensures Abstract() == MarkPending(old(Abstract()), ref, now)
    {
      var c := records[ref];
      records := records[ref := c.(revokePending := true, revokeAttempts := c.revokeAttempts + 1,
        lastAttemptAt := now)];
    }

    /** revokeAllActive up to its first await. */
    method SettleAndQueueAll(cids: seq<string>, now: int)
      requires Closed(Abstract())
      modifies this
      ensures Abstract() == MarkAll(old(Abstract()), cids, now)
    {
      for i := 0 to |cids|
        invariant Closed(Abstract())
        invariant Abstract() == MarkAll(old(Abstract()), cids[..i], now)
      {
        PrefixStep(cids, i);
        ghost var before := Abstract();
        var cid := cids[i];
        if cid in activeCredentials {
          SettleCredentialUsage(activeCredentials[cid], 0, now);
          MarkRevokePending(activeCredentials[cid], now);
        }
        assert Abstract() == MarkOne(before, cid, now);
      }
      assert cids[..|cids|] == cids;
    }

    method EvaluateGlobalKillSwitch(cids: seq<string>, now: int)
      requires Closed(Abstract())
      modifies this
      ensures Abstract() == EvaluateKillSwitch(cfg, old(Abstract()), cids, now)
    {
      if !monthlyUsage.killActive && AtLimit(cfg, monthlyUsage) {
        monthlyUsage := monthlyUsage.(killActive := true, killAt := now);
        if cfg.revokeAllOnKill {
          SettleAndQueueAll(cids, now);
        }
      }
    }

    method SumActive(cids: seq<string>, ip: string, cutoff: int) returns (total: int)
      requires Closed(Abstract())
      requires forall cid :: cid in cids <==> cid in activeCredentials
      requires forall i, j :: 0 <= i < j < |cids| ==> cids[i] != cids[j]
      ensures total == ActiveBytes(activeCredentials, records, ip, cutoff)
    {
      ghost var shares := Shares(activeCredentials, records, ip, cutoff);
      total := 0;
      assert Among(shares, cids[..0]) == map[];
      for i := 0 to |cids|
        invariant total == Total(Among(shares, cids[..i]))
      {
        AmongNext(shares, cids, i);
        var c := records[activeCredentials[cids[i]]];
        if c.ip == ip && c.issuedAt >= cutoff {
          total := total + c.pessimistic;
        }
      }
      assert Among(shares, cids[..|cids|]) == shares;
    }

    method SumHourlyBytesForIp(cids: seq<string>, ip: string, now: int) returns (total: int)
      requires Closed(Abstract())
      requires forall cid :: cid in cids <==> cid in activeCredentials
      requires forall i, j :: 0 <= i < j < |cids| ==> cids[i] != cids[j]
      ensures total == HourlyBytes(Abstract(), ip, now)
    {
      var cutoff := now - HOUR_MS;
      var active := SumActive(cids, ip, cutoff);
      var rows := 0;
      for i := 0 to |ipByteLedger|
        invariant rows == LedgerBytes(ipByteLedger[..i], ip, cutoff)
      {
        PrefixStep(ipByteLedger, i);
        if ipByteLedger[i].ip == ip && ipByteLedger[i].at >= cutoff {
          rows := rows + ipByteLedger[i].bytes;
        }
      }
      assert ipByteLedger[..|ipByteLedger|] == ipByteLedger;
      total := active + rows;
    }

    method CountRecentIssues(ip: string, since: int) returns (n: nat)
      ensures n == IssuedBy(ipIssuanceHistory, ip, since)
    {
      n := 0;
      for i := 0 to |ipIssuanceHistory|
        invariant n == IssuedBy(ipIssuanceHistory[..i], ip, since)
      {
        PrefixStep(ipIssuanceHistory, i);
        if ipIssuanceHistory[i].ip == ip && ipIssuanceHistory[i].issuedAt >= since {
          n := n + 1;
        }
      }
      assert ipIssuanceHistory[..|ipIssuanceHistory|] == ipIssuanceHistory;
    }

    /** Counts the live denials of an IP among `keys`: those of principals, and those of principals and
    sessions together. */
    method CountStrikes(keys: seq<DenyKey>, ip: string, now: int) returns (principals: nat, strikes: nat)
      requires forall key :: key in denyList ==> key in keys
      requires forall i, j :: 0 <= i < j < |keys| ==> keys[i] != keys[j]
      ensures principals == Strikes(denyList, ip, now)
      ensures principals <= strikes
    {
      principals, strikes := 0, 0;
      ghost var seen: set<DenyKey> := {};
      for i := 0 to |keys|
        invariant seen == set key | key in denyList && key in keys[..i] && key.PrincipalKey? && denyList[key].ip == ip
                  && denyList[key].until > now
        invariant principals == |seen| && principals <= strikes
      {
        var key := keys[i];
        assert keys[..i + 1] == keys[..i] + [key];
        assert key !in keys[..i];
        if key in denyList && !key.IpKey? && denyList[key].ip == ip && denyList[key].until > now {
          strikes := strikes + 1;
          if key.PrincipalKey? {
            principals := principals + 1;
            seen := seen + {key};
          }
        }
      }
      assert keys[..|keys|] == keys;
      assert seen == set key | key in denyList && key.PrincipalKey? && denyList[key].ip == ip
             && denyList[key].until > now;
    }

    /** applyDeny: strikes are counted over the list as it is with the new denials in it. */
    method DenyPrincipal(principal: string, ip: string, cid: string, keys: seq<DenyKey>, now: int)
      requires forall key :: key in denyList || key == PrincipalKey(principal) || key == CidKey(cid) ==> key in keys
      requires forall i, j :: 0 <= i < j < |keys| ==> keys[i] != keys[j]
      modifies this`denyList
      ensures Abstract() == ApplyDeny(cfg, old(Abstract()), principal, ip, cid, now)
    {
      if cfg.banMs <= 0 {
        return;
      }
      var entry := Deny(now + cfg.banMs, now, ip);
      denyList := denyList[PrincipalKey(principal) := entry];
      denyList := denyList[CidKey(cid) := entry];
      var principals, strikes := CountStrikes(keys, ip, now);
      assert principals > 0 by {
        var found := set key | key in denyList && key.PrincipalKey? && denyList[key].ip == ip
          && denyList[key].until > now;
        assert PrincipalKey(principal) in found;
      }
      var effective := if principals > 0 then principals else strikes;
      if effective >= cfg.ipBanStrikes {
        denyList := denyList[IpKey(ip) := entry];
      }
    }

    method CountReservation(bytes: int)
      modifies this`monthlyUsage
      ensures monthlyUsage == WithPessimistic(old(monthlyUsage), old(monthlyUsage).pessimistic + bytes)
    {
      monthlyUsage := monthlyUsage.(pessimistic := monthlyUsage.pessimistic + bytes);
      monthlyUsage := monthlyUsage.(bytes := Max(monthlyUsage.cf, monthlyUsage.pessimistic));
    }

    /** issueFreshCredentials from its caps to the provider call. */
    method ReserveCredential(cid: string, ip: string, principal: string, cids: seq<string>, now: int, ref: Ref)
      returns (reserved: bool)
      requires Closed(Abstract())
      requires forall c :: c in cids <==> c in activeCredentials
      requires forall i, j :: 0 <= i < j < |cids| ==> cids[i] != cids[j]
      modifies this
      ensures reserved <==> WithinIpCaps(cfg, old(Abstract()), ip, now)
      ensures Abstract() == if reserved then Reserve(cfg, old(Abstract()), cid, ip, principal, now, ref)
                else old(Abstract())
    {
      var recent := CountRecentIssues(ip, now - HOUR_MS);
      if recent >= cfg.maxIssuePerHourPerIp {
        return false;
      }
      var bytes := SumHourlyBytesForIp(cids, ip, now);
      if bytes >= cfg.maxBytesPerHourPerIp {
        return false;
      }
      var issue := Issue(ip, now, ref);
      log := log.(issues := log.issues + [issue], open := log.open + {ref},
                  gone := if cid in activeCredentials then log.gone[activeCredentials[cid] := Replaced] else log.gone);
      records := records[ref := Cred(cid, ip, principal, now, now + cfg.ttlMs, cfg.reservation, 0, false, false, 0, 0)];
      activeCredentials := activeCredentials[cid := ref];
      ipIssuanceHistory := ipIssuanceHistory + [issue];
      CountReservation(cfg.reservation);
      return true;
    }

    /** The history without this issuance's row, found by identity. */
    method SpliceIssue(ref: Ref)
      modifies this`ipIssuanceHistory
      ensures ipIssuanceHistory == WithoutIssue(old(ipIssuanceHistory), ref)
    {
      var rows := ipIssuanceHistory;
      var kept: seq<Issue> := [];
      for i := 0 to |rows|
        invariant kept == WithoutIssue(rows[..i], ref)
        invariant ipIssuanceHistory == rows
      {
        PrefixStep(rows, i);
        if rows[i].ref != ref {
          kept := kept + [rows[i]];
        }
      }
      assert rows[..|rows|] == rows;
      ipIssuanceHistory := kept;
    }

    method RollbackReservation(cid: string, ref: Ref)
      modifies this
      ensures Abstract() == Rollback(old(Abstract()), cid, ref, cfg.reservation)
    {
      if cid in activeCredentials && activeCredentials[cid] == ref {
        DropEntry(cid, RolledBack);
      }
      SpliceIssue(ref);
      monthlyUsage := monthlyUsage.(pessimistic := Max(0, monthlyUsage.pessimistic - cfg.reservation));
      monthlyUsage := monthlyUsage.(bytes := Max(monthlyUsage.cf, monthlyUsage.pessimistic));
      log := log.(issues := WithoutIssue(log.issues, ref), open := log.open - {ref});
    }

    /** issueCredentials up to the point where it joins, reuses or starts an issuance. */
    method AdmitRequest(cid: string, ip: string, principal: string, month: int, cids: seq<string>, keys: seq<DenyKey>,
        now: int)
      returns (gate: Gate)
      requires Closed(Abstract()) && forall key :: key in denyList ==> key in keys
      modifies this
      ensures Abstract() == Housekeep(old(Abstract()), month, cids, now)
      ensures gate == GateOf(cfg, Abstract(), cid, ip, principal, now)
    {
      RollMonthIfNeeded(month);
      PruneIssuanceHistory(now);
      PruneActiveCredentials(cids, now);
      PruneIpByteLedger(now);
      ExpireLeavesDenials(PruneHistory(RollMonth(old(Abstract()), month), now), cids, now);
      PruneDenials(keys, now);
      if monthlyUsage.killActive {
        return Exceeded;
      }
      if IpKey(ip) in denyList && denyList[IpKey(ip)].until > now {
        return BannedIp;
      }
      if PrincipalKey(principal) in denyList && denyList[PrincipalKey(principal)].until > now {
        return BannedSession;
      }
      if CidKey(cid) in denyList && denyList[CidKey(cid)].until > now {
        return BannedSession;
      }
      if cid in inFlightIssues {
        return Join;
      }
      if cid in credentialCache && cid in activeCredentials && activeCredentials[cid] == credentialCache[cid].ref
         && credentialCache[cid].expiresAt - now > cfg.reuseFloorMs {
        return Reuse;
      }
      return Fresh;
    }

    /** One row of the usage poll, up to the abuse path. */
    method ApplyUsageRow(cid: string, actual: nat)
      requires cid in activeCredentials && activeCredentials[cid] in records
      modifies this
      ensures Abstract() == Correct(old(Abstract()), cid, actual)
    {
      var ref := activeCredentials[cid];
      records := records[ref := records[ref].(cfActual := actual)];
      if actual > records[ref].pessimistic {
        var delta := actual - records[ref].pessimistic;
        CountReservation(delta);
        records := records[ref := records[ref].(pessimistic := actual)];
        log := log.(corrections := log.corrections + delta);
      }
    }

    /** handleAbusiveCredential up to its strict flush. */
    method SettleDenyAndQueue(cid: string, ref: Ref, actual: nat, keys: seq<DenyKey>, now: int)
      requires ref in records
      requires forall key ::
                 key in denyList || key == PrincipalKey(PrincipalOf(records[ref], cid)) || key == CidKey(cid)
                 ==> key in keys
      requires forall i, j :: 0 <= i < j < |keys| ==> keys[i] != keys[j]
      modifies this
      ensures Abstract() == Condemn(cfg, old(Abstract()), cid, ref, actual, now)
    {
      SettleCredentialUsage(ref, actual, now);
      var c := records[ref];
      DenyPrincipal(PrincipalOf(c, cid), c.ip, cid, keys, now);
      MarkRevokePending(ref, now);
    }

    method SetAnalyticsTruncated(truncated: bool)
      modifies this`monthlyUsage
      ensures monthlyUsage == SetTruncated(old(monthlyUsage), truncated)
    {
      if truncated {
        monthlyUsage := monthlyUsage.(truncated := true, error := Truncated);
      } else if monthlyUsage.truncated {
        if monthlyUsage.error.Truncated? {
          monthlyUsage := monthlyUsage.(error := NoError);
        }
        monthlyUsage := monthlyUsage.(truncated := false);
      }
    }

    /** pollGlobalUsage once its total is in, up to evaluating the switch. */
    method ApplyMonthTotal(total: nat, truncated: bool, activePessimistic: int, now: int)
      modifies this
      ensures truncated ==> Abstract() == old(Abstract()).(usage := ApplyLowerBound(old(monthlyUsage), total))
      ensures !truncated ==> Abstract() == Sync(cfg, old(Abstract()), total, activePessimistic, now)
    {
      if truncated {
        SetAnalyticsTruncated(true);
        monthlyUsage := monthlyUsage.(cf := Max(monthlyUsage.cf, total));
        monthlyUsage := monthlyUsage.(bytes := Max(monthlyUsage.cf, monthlyUsage.pessimistic));
        return;
      }
      SetAnalyticsTruncated(false);
      monthlyUsage := monthlyUsage.(cf := total, pessimistic := activePessimistic);
      monthlyUsage := monthlyUsage.(bytes := Max(total, activePessimistic), fromProvider := true, lastSyncAt := now,
        error := NoError);
      log := log.(resets := log.resets + 1);
      if monthlyUsage.killActive && !AtLimit(cfg, monthlyUsage) {
        monthlyUsage := monthlyUsage.(killActive := false, killAt := 0);
        log := log.(clears := log.clears + 1);
      }
    }
  }

  lemma {:induction false} ExpireLeavesDenials(t: Turn, cids: seq<string>, now: int)
    requires Closed(t)
    ensures Expire(t, cids, now).deny == t.deny
  {
    if cids != [] {
      ExpireLeavesDenials(t, cids[..|cids| - 1], now);
    }
  }
}
