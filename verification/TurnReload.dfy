/** Restart: what is left of the accounting state after its file is read back, and what survives a crash. */
module TurnReload {

  import opened Common
  import opened Sums
  import opened TurnState
  import opened TurnMachine
  import opened TurnRuns
  import opened TurnSettlement
  import opened TurnCrash
  import opened TurnFile

  // ----- what the reader accepts, and what it keeps -----

  predicate KeepsEntry(cid: string, c: Cred) {
    0 < |cid| <= S.MAX_CID_LEN && c.ip != ""
  }

  predicate CredFits(c: Cred) {
    && |c.ip| <= S.MAX_IP_LEN && c.issuedAt <= c.expiresAt <= MAX_SAFE_INTEGER && c.pessimistic <= MAX_SAFE_INTEGER
    && c.cfActual <= MAX_SAFE_INTEGER && c.revokeAttempts <= MAX_SAFE_INTEGER && c.lastAttemptAt <= MAX_SAFE_INTEGER
  }

  predicate RowFits(row: Row) {
    |row.ip| <= S.MAX_IP_LEN && row.bytes <= MAX_SAFE_INTEGER && row.at <= MAX_SAFE_INTEGER
  }

  predicate IssueFits(issue: Issue) {
    0 < |issue.ip| <= S.MAX_IP_LEN && issue.issuedAt <= MAX_SAFE_INTEGER
  }

  predicate DenialFits(key: DenyKey, d: Deny) {
    |KeyText(key)| <= S.MAX_STR_LEN && d.until <= MAX_SAFE_INTEGER && d.at <= MAX_SAFE_INTEGER
  }

  /** No credential and no ledger row is out of bounds, and no session identifier is too long. */
  ghost predicate FileFits(t: Turn, d: S.Saved)
    requires Closed(t)
  {
    && t.usage.bytes >= 0 && t.usage.cf >= 0 && t.usage.pessimistic >= 0
    && (forall cid :: cid in t.active && KeepsEntry(cid, t.creds[t.active[cid]]) ==> CredFits(t.creds[t.active[cid]]))
    && (forall i :: 0 <= i < |d.active| && S.ReadAsCred(d.active[i]) ==> |d.active[i].1.sessionId| <= S.MAX_STR_LEN)
    && (forall i :: 0 <= i < |t.ledger| && t.ledger[i].ip != "" ==> RowFits(t.ledger[i]))
  }

  lemma EntryOf(t: Turn, d: S.Saved, i: nat)
    requires Closed(t) && ActiveAs(t, d.active) && i < |d.active|
    ensures d.active[i].0 in t.active
    ensures var c := t.creds[t.active[d.active[i].0]];
            && CredAs(c, d.active[i].1) && (S.ReadAsCred(d.active[i]) <==> KeepsEntry(d.active[i].0, c))
            && (S.CredInBounds(d.active[i].1) <==> CredFits(c) && |d.active[i].1.sessionId| <= S.MAX_STR_LEN)
  {
    var cid := d.active[i].0;
    var j :| 0 <= j < |d.active| && d.active[j].0 == cid && CredAs(t.creds[t.active[cid]], d.active[j].1);
    assert i == j;
  }

  /** The reader accepts the file of a state exactly if every credential and every ledger row fits. */
  lemma AcceptedIff(t: Turn, d: S.Saved, now: int)
    requires Written(t, d)
    ensures S.Validated(S.Write(d), now).Some? <==> FileFits(t, d)
    ensures S.Accepted(d) <==> FileFits(t, d)
  {
    S.WrittenIsRead(d, now);
    MonthKeyIsKey(t.usage.month);
    ActiveAccepted(t, d);
    LedgerAccepted(t.ledger, d.ledger);
  }

  lemma ActiveAccepted(t: Turn, d: S.Saved)
    requires Closed(t) && ActiveAs(t, d.active)
    ensures (forall i :: 0 <= i < |d.active| && S.ReadAsCred(d.active[i]) ==> S.CredInBounds(d.active[i].1)) <==>
              && (forall cid ::
                    cid in t.active && KeepsEntry(cid, t.creds[t.active[cid]]) ==> CredFits(t.creds[t.active[cid]]))
              && (forall i ::
                    0 <= i < |d.active| && S.ReadAsCred(d.active[i]) ==> |d.active[i].1.sessionId| <= S.MAX_STR_LEN)
  {
    forall i | 0 <= i < |d.active|
      ensures d.active[i].0 in t.active
      ensures var c := t.creds[t.active[d.active[i].0]];
              && (S.ReadAsCred(d.active[i]) <==> KeepsEntry(d.active[i].0, c))
              && (S.CredInBounds(d.active[i].1) <==> CredFits(c) && |d.active[i].1.sessionId| <= S.MAX_STR_LEN)
    {
      EntryOf(t, d, i);
    }
  }

  lemma LedgerAccepted(ledger: seq<Row>, rows: seq<S.Row>)
    requires RowsAs(ledger, rows)
    ensures (forall i :: 0 <= i < |rows| && rows[i].ip != "" ==> S.RowInBounds(rows[i])) <==>
            (forall i :: 0 <= i < |ledger| && ledger[i].ip != "" ==> RowFits(ledger[i]))
  {
    forall i | 0 <= i < |rows|
      ensures rows[i].ip == ledger[i].ip && (S.RowInBounds(rows[i]) <==> RowFits(ledger[i]))
    {
      assert RowAs(ledger[i], rows[i]);
    }
  }

  // ----- the state after a restart -----

  function Shortened(c: Cred): Cred {
    c.(principal := if |c.principal| <= S.MAX_PRINCIPAL_LEN then c.principal else "")
  }

  function ShortenedDeny(d: Deny): Deny {
    d.(ip := if |d.ip| <= S.MAX_IP_LEN then d.ip else "")
  }

  function NamedRows(cutoff: int): Row -> bool {
    (row: Row) => row.at >= cutoff && row.ip != ""
  }

  function UsageAfter(u: Usage, month: int): Usage {
    if u.month == month then u.(bytes := Max(u.cf, u.pessimistic)) else FreshMonth(month)
  }

  function DenialsAfter(deny: map<DenyKey, Deny>): map<DenyKey, Deny> {
    map key | key in deny && DenialFits(key, deny[key]) :: ShortenedDeny(deny[key])
  }

  function ActiveAfter(t: Turn): map<string, Ref>
    requires Closed(t)
  {
    map cid | cid in t.active && KeepsEntry(cid, t.creds[t.active[cid]]) :: t.active[cid]
  }

  /** What the reader makes of an accepted state. */
  function Reloaded(t: Turn, month: int, now: int): (r: Turn)
    requires Closed(t)
    ensures Closed(r)
  {
    t.(usage := UsageAfter(t.usage, month),
       active := ActiveAfter(t),
       creds := map ref | ref in t.creds :: Shortened(t.creds[ref]),
       history := Select(t.history, IssueFits, Same),
       deny := DenialsAfter(t.deny),
       ledger := Select(t.ledger, NamedRows(now - HOUR_MS), Same))
  }

  lemma {:induction false} SelectKeyedOnce<T>(entries: S.Entries<T>, keep: ((string, T)) -> bool,
      f: ((string, T)) -> (string, T))
    requires KeyedOnce(entries) && forall e :: f(e).0 == e.0
    ensures KeyedOnce(Select(entries, keep, f))
  {
    if entries != [] {
      var init, last := entries[..|entries| - 1], entries[|entries| - 1];
      assert entries == init + [last];
      SelectKeyedOnce(init, keep, f);
      SelectNext(init, last, keep, f);
      forall j | 0 <= j < |Select(init, keep, f)| ensures Select(init, keep, f)[j].0 != last.0 {
        SelectFrom(init, keep, f, j);
        var i :| 0 <= i < |init| && keep(init[i]) && Select(init, keep, f)[j] == f(init[i]);
        assert entries[i].0 != entries[|init|].0;
      }
    }
  }

  lemma DenialOf(deny: map<DenyKey, Deny>, entries: S.Entries<S.Deny>, i: nat) returns (key: DenyKey)
    requires DenialsAs(deny, entries) && i < |entries|
    ensures key in deny && entries[i].0 == KeyText(key) && DenialAs(deny[key], entries[i].1)
    ensures S.DenyInBounds(entries[i]) <==> DenialFits(key, deny[key])
  {
    assert OfSome(entries[i].0, deny);
    key :| key in deny && KeyText(key) == entries[i].0;
    var j :| 0 <= j < |entries| && entries[j].0 == KeyText(key) && DenialAs(deny[key], entries[j].1);
    assert i == j;
  }

  lemma DenialKept(deny: map<DenyKey, Deny>, entries: S.Entries<S.Deny>, key: DenyKey)
    requires DenialsAs(deny, entries) && key in DenialsAfter(deny)
    ensures var kept := Select(entries, S.DenyInBounds, S.RereadDeny);
            exists j :: 0 <= j < |kept| && kept[j].0 == KeyText(key) && DenialAs(DenialsAfter(deny)[key], kept[j].1)
  {
    var i :| 0 <= i < |entries| && entries[i].0 == KeyText(key) && DenialAs(deny[key], entries[i].1);
    SelectHolds(entries, S.DenyInBounds, S.RereadDeny, i);
    var kept := Select(entries, S.DenyInBounds, S.RereadDeny);
    var j :| 0 <= j < |kept| && kept[j] == S.RereadDeny(entries[i]);
    assert kept[j].0 == KeyText(key) && DenialAs(ShortenedDeny(deny[key]), kept[j].1);
  }

  lemma KeptIsDenial(deny: map<DenyKey, Deny>, entries: S.Entries<S.Deny>, j: nat)
    requires DenialsAs(deny, entries) && j < |Select(entries, S.DenyInBounds, S.RereadDeny)|
    ensures OfSome(Select(entries, S.DenyInBounds, S.RereadDeny)[j].0, DenialsAfter(deny))
  {
    SelectFrom(entries, S.DenyInBounds, S.RereadDeny, j);
    var kept := Select(entries, S.DenyInBounds, S.RereadDeny);
    var i :| 0 <= i < |entries| && S.DenyInBounds(entries[i]) && kept[j] == S.RereadDeny(entries[i]);
    var key := DenialOf(deny, entries, i);
    assert key in DenialsAfter(deny) && KeyText(key) == kept[j].0;
  }

  lemma DenialsReload(deny: map<DenyKey, Deny>, entries: S.Entries<S.Deny>)
    requires DenialsAs(deny, entries)
    ensures DenialsAs(DenialsAfter(deny), Select(entries, S.DenyInBounds, S.RereadDeny))
  {
    var kept := Select(entries, S.DenyInBounds, S.RereadDeny);
    SelectKeyedOnce(entries, S.DenyInBounds, S.RereadDeny);
    forall key | key in DenialsAfter(deny)
      ensures exists j :: 0 <= j < |kept| && kept[j].0 == KeyText(key) && DenialAs(DenialsAfter(deny)[key], kept[j].1)
    {
      DenialKept(deny, entries, key);
    }
    forall j | 0 <= j < |kept| ensures OfSome(kept[j].0, DenialsAfter(deny)) {
      KeptIsDenial(deny, entries, j);
    }
  }

  lemma EntryReread(cid: string, c: Cred, e: (string, S.Cred))
    requires e.0 == cid && c.cid == cid && CredAs(c, e.1) && KeepsEntry(cid, c)
    ensures S.ReadAsCred(e) && S.Reread(e).0 == cid && CredAs(Shortened(c), S.Reread(e).1)
  {
  }

  lemma EntryKept(entries: S.Entries<S.Cred>, cid: string, c: Cred)
    requires exists i :: 0 <= i < |entries| && entries[i].0 == cid && CredAs(c, entries[i].1)
    requires c.cid == cid && KeepsEntry(cid, c)
    ensures var kept := Select(entries, S.ReadAsCred, S.Reread);
            exists j :: 0 <= j < |kept| && kept[j].0 == cid && CredAs(Shortened(c), kept[j].1)
  {
    var i :| 0 <= i < |entries| && entries[i].0 == cid && CredAs(c, entries[i].1);
    EntryReread(cid, c, entries[i]);
    SelectHolds(entries, S.ReadAsCred, S.Reread, i);
  }

  lemma KeptIsEntry(t: Turn, d: S.Saved, j: nat)
    requires Closed(t) && ActiveAs(t, d.active) && j < |Select(d.active, S.ReadAsCred, S.Reread)|
    ensures Select(d.active, S.ReadAsCred, S.Reread)[j].0 in ActiveAfter(t)
  {
    SelectFrom(d.active, S.ReadAsCred, S.Reread, j);
    var kept := Select(d.active, S.ReadAsCred, S.Reread);
    var i :| 0 <= i < |d.active| && S.ReadAsCred(d.active[i]) && kept[j] == S.Reread(d.active[i]);
    EntryOf(t, d, i);
  }

  lemma ActiveReload(t: Turn, month: int, now: int, d: S.Saved)
    requires Keyed(t) && Closed(t) && ActiveAs(t, d.active)
    ensures ActiveAs(Reloaded(t, month, now), Select(d.active, S.ReadAsCred, S.Reread))
  {
    var r, kept := Reloaded(t, month, now), Select(d.active, S.ReadAsCred, S.Reread);
    SelectKeyedOnce(d.active, S.ReadAsCred, S.Reread);
    forall cid | cid in r.active ensures exists j ::
      0 <= j < |kept| && kept[j].0 == cid && CredAs(r.creds[r.active[cid]], kept[j].1) {
      EntryKept(d.active, cid, t.creds[t.active[cid]]);
    }
    forall j | 0 <= j < |kept| ensures kept[j].0 in r.active {
      KeptIsEntry(t, d, j);
    }
  }

  lemma HistoryReloads(history: seq<Issue>, rows: seq<S.Issue>)
    requires IssuesAs(history, rows)
    ensures IssuesAs(Select(history, IssueFits, Same), Select(rows, S.IssueInBounds, Same))
  {
    SelectsCorrespond(history, rows, IssueFits, S.IssueInBounds, IssueAs);
  }

  lemma LedgerReloads(ledger: seq<Row>, rows: seq<S.Row>, cutoff: int)
    requires RowsAs(ledger, rows)
    ensures RowsAs(Select(ledger, NamedRows(cutoff), Same), Select(rows, S.NamedSince(cutoff), Same))
  {
    SelectsCorrespond(ledger, rows, NamedRows(cutoff), S.NamedSince(cutoff), RowAs);
  }

  lemma UsageReloads(u: Usage, e: S.Usage, month: nat)
    requires UsageAs(u, e) && month < MONTHS
    ensures UsageAs(UsageAfter(u, month), S.CurrentUsage(e, MonthKey(month)))
  {
    if e.monthKey == MonthKey(month) {
      MonthKeyIsInjective(u.month, month);
    }
  }

  lemma ReloadedIsWritten(t: Turn, d: S.Saved, now: int, month: nat)
    requires Written(t, d) && Keyed(t) && S.Accepted(d) && month < MONTHS
    ensures var loaded := S.LoadedState(S.Write(d), now, MonthKey(month));
            loaded.Some? && Written(Reloaded(t, month, now), loaded.value)
  {
    S.WrittenIsRead(d, now);
    UsageReloads(t.usage, d.usage, month);
    ActiveReload(t, month, now, d);
    HistoryReloads(t.history, d.history);
    DenialsReload(t.deny, d.deny);
    LedgerReloads(t.ledger, d.ledger, now - HOUR_MS);
  }

  /** The process that starts from a file: in memory is what loading gave, or an empty month with issuance off. */
  ghost predicate Restarts(s: Sys, file: S.Parsed, now: int) {
    && 0 <= s.t.usage.month < MONTHS
    && match S.LoadedState(file, now, MonthKey(s.t.usage.month))
       case Some(d) => s.ready && Written(s.t, d)
       case None => !s.ready && Blank(s.t)
  }

  predicate Blank(t: Turn) {
    t.usage == FreshMonth(t.usage.month) && t.active == map[] && t.history == [] && t.deny == map[] && t.ledger == []
  }

  /** Exactly what a restart restores: if every credential and ledger row fits, everything but the denials
  and history rows that do not, and otherwise nothing, with issuance off. */
  lemma RestartRestores(t: Turn, d: S.Saved, s: Sys, now: int)
    requires Written(t, d) && Keyed(t) && Restarts(s, S.Write(d), now)
    ensures s.ready <==> FileFits(t, d)
    ensures if s.ready then SameSaved(s.t, Reloaded(t, s.t.usage.month, now)) else Blank(s.t)
  {
    AcceptedIff(t, d, now);
    if FileFits(t, d) {
      ReloadedIsWritten(t, d, now, s.t.usage.month);
      OneFileOneState(s.t, Reloaded(t, s.t.usage.month, now),
        S.LoadedState(S.Write(d), now, MonthKey(s.t.usage.month)).value);
    }
  }

  /** A denial survives a restart if and only if the file is accepted and the denial itself fits. */
  lemma DenialSurvivesIff(t: Turn, d: S.Saved, s: Sys, now: int, key: DenyKey)
    requires Written(t, d) && Keyed(t) && Restarts(s, S.Write(d), now) && key in t.deny
    ensures (s.ready && key in s.t.deny && s.t.deny[key].until == t.deny[key].until)
            <==> FileFits(t, d) && DenialFits(key, t.deny[key])
    ensures key in s.t.deny <==> FileFits(t, d) && DenialFits(key, t.deny[key])
  {
    RestartRestores(t, d, s, now);
  }

  // ----- every reachable state can be restarted -----

  lemma {:induction false} SelectedRowsDistinct(ledger: seq<Row>, keep: Row -> bool)
    requires Distinct(Froms(ledger))
    ensures Distinct(Froms(Select(ledger, keep, Same)))
  {
    if ledger != [] {
      var init, last := ledger[..|ledger| - 1], ledger[|ledger| - 1];
      assert ledger == init + [last];
      FromsAppend(init, last);
      DistinctAppend(Froms(init), last.from);
      SelectedRowsDistinct(init, keep);
      SelectNext(init, last, keep, Same);
      if keep(last) {
        SelectedFrom(init, keep, last.from);
        FromsAppend(Select(init, keep, Same), last);
        DistinctAppend(Froms(Select(init, keep, Same)), last.from);
      } else {
        assert Select(init, keep, Same) + [] == Select(init, keep, Same);
      }
    }
  }

  lemma SelectedFrom(ledger: seq<Row>, keep: Row -> bool, ref: Ref)
    requires ref !in Froms(ledger)
    ensures ref !in Froms(Select(ledger, keep, Same))
  {
    var kept := Select(ledger, keep, Same);
    FromsAreRows(kept);
    FromsAreRows(ledger);
    if ref in Froms(kept) {
      var row :| row in kept && row.from == ref;
      SelectedRowsAreRows(ledger, keep, row);
    }
  }

  lemma SelectedRowsAreRows(ledger: seq<Row>, keep: Row -> bool, row: Row)
    requires row in Select(ledger, keep, Same)
    ensures row in ledger
  {
    var j :| 0 <= j < |Select(ledger, keep, Same)| && Select(ledger, keep, Same)[j] == row;
    SelectFrom(ledger, keep, Same, j);
  }

  /** A process started with these data: nothing in flight, and a log that begins here. */
  function Rebooted(t: Turn): Turn {
    t.(cache := map[], inFlight := map[], history := Forgotten(t.history),
       log := Log(Forgotten(t.history), [], {}, 0, t.usage.pessimistic, 0, 0, 0, t.log.written, map[]))
  }

  /** The file does not say which issuance a history row belongs to. */
  function Forgotten(history: seq<Issue>): seq<Issue> {
    seq(|history|, i requires 0 <= i < |history| => history[i].(ref := 0))
  }

  lemma {:induction false} NothingAgesOut(history: seq<Issue>)
    requires forall i :: 0 <= i < |history| ==> history[i].issuedAt >= 0
    ensures IssuesFrom(history, 0) == history
  {
    if history != [] {
      NothingAgesOut(history[..|history| - 1]);
    }
  }

  lemma ForgottenIssues(history: seq<Issue>, rows: seq<S.Issue>)
    requires IssuesAs(history, rows)
    ensures IssuesAs(Forgotten(history), rows) && IssuesFrom(Forgotten(history), 0) == Forgotten(history)
  {
    forall i | 0 <= i < |rows| ensures IssueAs(Forgotten(history)[i], rows[i]) {
      assert IssueAs(history[i], rows[i]);
    }
    NothingAgesOut(Forgotten(history));
  }

  function Restarted(t: Turn, month: int, now: int, next: nat): Sys
    requires Closed(t)
  {
    Sys(Rebooted(Reloaded(t, month, now)), true, map[], next + 1, 0, 0, false, false, false)
  }

  lemma AcceptedRestarts(t: Turn, d: S.Saved, month: nat, now: int, next: nat)
    requires Written(t, d) && Keyed(t) && S.Accepted(d) && month < MONTHS
    ensures Restarts(Restarted(t, month, now, next), S.Write(d), now)
            && Restarted(t, month, now, next).t.usage.month == month
  {
    ReloadedIsWritten(t, d, now, month);
    RebootedIsWritten(Reloaded(t, month, now), S.LoadedState(S.Write(d), now, MonthKey(month)).value);
  }

  lemma RefusedRestarts(d: S.Saved, month: nat, now: int)
    requires !S.Accepted(d) && month < MONTHS
    ensures Restarts(Sys(NewTurn(month), false, map[], 0, 0, 0, false, false, false), S.Write(d), now)
  {
    S.WrittenIsRead(d, now);
  }

  lemma DatesOf(t: Turn, d: S.Saved)
    requires Written(t, d)
    ensures forall i :: 0 <= i < |t.history| ==> t.history[i].issuedAt >= 0
    ensures S.Accepted(d) ==> t.usage.pessimistic >= 0
  {
    forall i | 0 <= i < |t.history| ensures t.history[i].issuedAt >= 0 {
      assert IssueAs(t.history[i], d.history[i]);
    }
  }

  /** Of every state that a run reaches, and every snapshot it may be written as, there is a process that
  starts from that file at any later time, whether or not the file is accepted. */
  lemma EveryFileRestarts(cfg: Config, t: Trace, d: S.Saved, month: nat, now: int) returns (s: Sys)
    requires Possible(cfg, t) && Written(Run(cfg, t).t, d) && month < MONTHS && now >= HOUR_MS
    ensures Boot(s, now) && Restarts(s, S.Write(d), now) && s.t.usage.month == month
  {
    var u := Run(cfg, t);
    RunIsKeyed(cfg, t);
    if S.Accepted(d) {
      RunHealthy(cfg, t);
      OneRowForEachReservation(cfg, t);
      DatesOf(u.t, d);
      AcceptedRestarts(u.t, d, month, now, u.nextId);
      ReloadedBoots(u.t, month, now, u.nextId);
      s := Restarted(u.t, month, now, u.nextId);
    } else {
      RefusedRestarts(d, month, now);
      FirstStartBoots(month, now);
      s := Sys(NewTurn(month), false, map[], 0, 0, 0, false, false, false);
    }
  }

  lemma RebootedIsWritten(t: Turn, d: S.Saved)
    requires Written(t, d)
    ensures Written(Rebooted(t), d)
  {
    ForgottenIssues(t.history, d.history);
  }

  lemma ReloadedBoots(t: Turn, month: int, now: int, next: nat)
    requires Keyed(t) && Closed(t) && WrittenOnce(t) && t.usage.pessimistic >= 0 && now >= HOUR_MS
    requires forall ref :: ref in t.creds ==> ref < next
    requires forall i :: 0 <= i < |t.history| ==> t.history[i].issuedAt >= 0
    ensures Boot(Restarted(t, month, now, next), now)
  {
    var r := Reloaded(t, month, now);
    SelectedRowsDistinct(t.ledger, NamedRows(now - HOUR_MS));
    forall row | row in r.ledger ensures row.from in t.log.written {
      SelectedRowsAreRows(t.ledger, NamedRows(now - HOUR_MS), row);
    }
    forall i | 0 <= i < |r.history| ensures r.history[i].issuedAt >= 0 {
      SelectFrom(t.history, IssueFits, Same, i);
    }
    NothingAgesOut(Forgotten(r.history));
  }

  // ----- the hour after a restart -----

  /** A row of this address that the hour counts. */
  predicate CountsFor(issue: Issue, ip: string, since: int) {
    issue.ip == ip && issue.issuedAt >= since
  }

  lemma IssuedByNext(rows: seq<Issue>, last: Issue, ip: string, since: int)
    ensures IssuedBy(rows + [last], ip, since)
            == IssuedBy(rows, ip, since) + (if CountsFor(last, ip, since) then 1 else 0)
  {
    assert (rows + [last])[..|rows|] == rows;
  }

  predicate HourFits(rows: seq<Issue>, ip: string, since: int) {
    forall i :: 0 <= i < |rows| && CountsFor(rows[i], ip, since) ==> IssueFits(rows[i])
  }

  lemma HourFitsNext(init: seq<Issue>, last: Issue, ip: string, since: int)
    ensures HourFits(init + [last], ip, since)
            <==> HourFits(init, ip, since) && (CountsFor(last, ip, since) ==> IssueFits(last))
  {
    var rows := init + [last];
    assert rows[|init|] == last && forall i :: 0 <= i < |init| ==> rows[i] == init[i];
  }

  lemma SelectedIssuesNext(init: seq<Issue>, last: Issue, ip: string, since: int)
    ensures IssuedBy(Select(init + [last], IssueFits, Same), ip, since)
            == IssuedBy(Select(init, IssueFits, Same), ip, since)
               + (if IssueFits(last) && CountsFor(last, ip, since) then 1 else 0)
  {
    var kept := Select(init, IssueFits, Same);
    SelectNext(init, last, IssueFits, Same);
    IssuedByNext(kept, last, ip, since);
    assert kept + [] == kept;
  }

  lemma {:induction false} SelectedIssuesIff(rows: seq<Issue>, ip: string, since: int)
    ensures IssuedBy(Select(rows, IssueFits, Same), ip, since) <= IssuedBy(rows, ip, since)
    ensures IssuedBy(Select(rows, IssueFits, Same), ip, since) == IssuedBy(rows, ip, since)
            <==> HourFits(rows, ip, since)
  {
    if rows != [] {
      var init, last := rows[..|rows| - 1], rows[|rows| - 1];
      assert rows == init + [last];
      SelectedIssuesIff(init, ip, since);
      SelectedIssuesNext(init, last, ip, since);
      IssuedByNext(init, last, ip, since);
      HourFitsNext(init, last, ip, since);
    }
  }

  lemma {:induction false} IssuedByAs(a: seq<Issue>, b: seq<Issue>, ip: string, since: int)
    requires |a| == |b| && forall i :: 0 <= i < |a| ==> a[i] == b[i].(ref := a[i].ref)
    ensures IssuedBy(a, ip, since) == IssuedBy(b, ip, since)
  {
    if a != [] {
      IssuedByAs(a[..|a| - 1], b[..|b| - 1], ip, since);
    }
  }

  /** An accepted file keeps an address's issuances of the hour if and only if each of its rows in the hour
  fits: the rows of an address that is too long are forgotten. */
  lemma IssuancesSurviveIff(t: Turn, d: S.Saved, s: Sys, now: int, ip: string, since: int)
    requires Written(t, d) && Keyed(t) && Restarts(s, S.Write(d), now) && FileFits(t, d)
    ensures IssuedBy(s.t.history, ip, since) == IssuedBy(t.history, ip, since) <==> HourFits(t.history, ip, since)
  {
    RestartRestores(t, d, s, now);
    IssuedByAs(s.t.history, Select(t.history, IssueFits, Same), ip, since);
    SelectedIssuesIff(t.history, ip, since);
  }

  lemma LedgerBytesNext(rows: seq<Row>, last: Row, ip: string, since: int)
    ensures LedgerBytes(rows + [last], ip, since)
            == LedgerBytes(rows, ip, since) + (if last.ip == ip && last.at >= since then last.bytes else 0)
  {
    assert (rows + [last])[..|rows|] == rows;
  }

  lemma NamedBytesNext(init: seq<Row>, last: Row, cutoff: int, ip: string, since: int)
    requires cutoff <= since
    ensures LedgerBytes(Select(init + [last], NamedRows(cutoff), Same), ip, since)
            == LedgerBytes(Select(init, NamedRows(cutoff), Same), ip, since)
               + (if last.ip == ip && last.at >= since && ip != "" then last.bytes else 0)
  {
    var kept := Select(init, NamedRows(cutoff), Same);
    SelectNext(init, last, NamedRows(cutoff), Same);
    LedgerBytesNext(kept, last, ip, since);
    assert kept + [] == kept;
  }

  /** Only the rows without an address are missing from the hours to come. */
  lemma {:induction false} NamedBytes(rows: seq<Row>, cutoff: int, ip: string, since: int)
    requires cutoff <= since
    ensures LedgerBytes(Select(rows, NamedRows(cutoff), Same), ip, since)
            == if ip == "" then 0 else LedgerBytes(rows, ip, since)
  {
    if rows != [] {
      var init, last := rows[..|rows| - 1], rows[|rows| - 1];
      assert rows == init + [last];
      NamedBytes(init, cutoff, ip, since);
      NamedBytesNext(init, last, cutoff, ip, since);
      LedgerBytesNext(init, last, ip, since);
    }
  }

  lemma {:induction false} LedgerBytesAs(a: seq<Row>, b: seq<Row>, ip: string, since: int)
    requires |a| == |b| && forall i :: 0 <= i < |a| ==> a[i] == b[i].(from := a[i].from)
    ensures LedgerBytes(a, ip, since) == LedgerBytes(b, ip, since)
  {
    if a != [] {
      LedgerBytesAs(a[..|a| - 1], b[..|b| - 1], ip, since);
    }
  }

  /** A credential that the reader drops counts nothing for this address in the hour. */
  ghost predicate DropsNothing(t: Turn, ip: string, since: int)
    requires Closed(t)
  {
    forall cid :: cid in t.active ==>
      var c := t.creds[t.active[cid]];
      c.ip == ip && c.issuedAt >= since && !KeepsEntry(cid, c) ==> c.pessimistic == 0
  }

  lemma DropsNothingIff(t: Turn, before: map<string, int>, after: map<string, int>, ip: string, since: int)
    requires Closed(t) && before == Shares(t.active, t.creds, ip, since) && after.Keys == ActiveAfter(t).Keys
    ensures DropsNothing(t, ip, since) <==> forall cid :: cid in before && cid !in after ==> before[cid] == 0
  {
    if forall cid :: cid in before && cid !in after ==> before[cid] == 0 {
      forall cid | cid in t.active
        ensures var c := t.creds[t.active[cid]];
                c.ip == ip && c.issuedAt >= since && !KeepsEntry(cid, c) ==> c.pessimistic == 0
      {
        assert cid in before && (cid in after <==> KeepsEntry(cid, t.creds[t.active[cid]]));
      }
    }
  }

  lemma ActiveBytesIff(t: Turn, month: int, now: int, ip: string, since: int)
    requires Closed(t)
    ensures var r := Reloaded(t, month, now);
            && ActiveBytes(r.active, r.creds, ip, since) <= ActiveBytes(t.active, t.creds, ip, since)
            && (ActiveBytes(r.active, r.creds, ip, since) == ActiveBytes(t.active, t.creds, ip, since)
               <==> DropsNothing(t, ip, since))
  {
    var r := Reloaded(t, month, now);
    var before, after := Shares(t.active, t.creds, ip, since), Shares(r.active, r.creds, ip, since);
    TotalOfSomeIff(before, after);
    DropsNothingIff(t, before, after, ip, since);
  }

  lemma ActiveBytesAs(a: Turn, b: Turn, ip: string, since: int)
    requires SameActive(a, b)
    ensures ActiveBytes(a.active, a.creds, ip, since) == ActiveBytes(b.active, b.creds, ip, since)
  {
    assert Shares(a.active, a.creds, ip, since) == Shares(b.active, b.creds, ip, since);
  }

  lemma SavedHour(a: Turn, b: Turn, ip: string, later: int)
    requires SameSaved(a, b)
    ensures HourlyBytes(a, ip, later) == HourlyBytes(b, ip, later)
  {
    ActiveBytesAs(a, b, ip, later - HOUR_MS);
    LedgerBytesAs(a.ledger, b.ledger, ip, later - HOUR_MS);
  }

  lemma ReloadedHourIff(t: Turn, month: int, now: int, ip: string, later: int)
    requires Closed(t) && now <= later
    ensures HourlyBytes(Reloaded(t, month, now), ip, later) == HourlyBytes(t, ip, later)
            <==> DropsNothing(t, ip, later - HOUR_MS)
                 && (ip == "" ==> LedgerBytes(t.ledger, ip, later - HOUR_MS) == 0)
  {
    NamedBytes(t.ledger, now - HOUR_MS, ip, later - HOUR_MS);
    ActiveBytesIff(t, month, now, ip, later - HOUR_MS);
  }

  /** And it keeps an address's hourly bytes, at any later time, if and only if no credential of it is dropped
  that counts and no ledger row lacks an address. */
  lemma HourlyBytesSurviveIff(t: Turn, d: S.Saved, s: Sys, now: int, ip: string, later: int)
    requires Written(t, d) && Keyed(t) && Restarts(s, S.Write(d), now) && FileFits(t, d) && now <= later
    ensures HourlyBytes(s.t, ip, later) == HourlyBytes(t, ip, later)
            <==> DropsNothing(t, ip, later - HOUR_MS)
                 && (ip == "" ==> LedgerBytes(t.ledger, ip, later - HOUR_MS) == 0)
  {
    RestartRestores(t, d, s, now);
    SavedHour(s.t, Reloaded(t, s.t.usage.month, now), ip, later);
    ReloadedHourIff(t, s.t.usage.month, now, ip, later);
  }

  // ----- after a crash -----

  /** The credential under this identifier, if there is one, is settled and queued for revocation. */
  ghost predicate Queued(t: Turn, cid: string) {
    cid in t.active
    ==> t.active[cid] in t.creds && t.creds[t.active[cid]].settled && t.creds[t.active[cid]].revokePending
  }

  lemma HeldQueues(cfg: Config, t: Turn, k: Mark, now: int)
    requires Held(cfg, t, k, now) && now < k.until
    ensures Queued(t, k.cid) && DeniedUntil(t, PrincipalKey(k.principal), k.until)
            && DeniedUntil(t, CidKey(k.cid), k.until)
  {
  }

  /** One of the two keys under which an abusive credential is denied. */
  predicate KeyOf(k: Mark, key: DenyKey) {
    key == PrincipalKey(k.principal) || key == CidKey(k.cid)
  }

  lemma HeldRestarts(cfg: Config, t: Turn, k: Mark, d: S.Saved, s: Sys, since: int, now: int, key: DenyKey)
    requires Held(cfg, t, k, since) && since < k.until && KeyOf(k, key)
    requires Written(t, d) && Restarts(s, S.Write(d), now)
    ensures key in t.deny && (DeniedUntil(s.t, key, k.until) <==> FileFits(t, d) && DenialFits(key, t.deny[key]))
    ensures FileFits(t, d) ==> s.ready && Queued(s.t, k.cid)
  {
    HeldQueues(cfg, t, k, since);
    DenialSurvivesIff(t, d, s, now, key);
    RestartRestores(t, d, s, now);
  }

  /** Crash at the moment the provider is called and restart from the file, whatever it holds. The denial of
  the principal, and that of the identifier, survives if and only if every credential and ledger row of
  the file fits the reader's bounds and so does that denial; then every request it covers is refused in
  every run until the ban ends. In an accepted file the credential is queued for revocation again. */
  lemma CrashStillDenies(cfg: Config, h: History, id: nat, d: S.Saved, t: Trace, env: Env, key: DenyKey)
    requires Happens(cfg, h) && cfg.banMs > 0
    requires id in Replay(cfg, h).sys.tasks && Replay(cfg, h).sys.tasks[id].AbuseRevoking?
    requires Possible(cfg, t) && Clock(h) <= First(t).at && Now(t) <= env.now
    requires Replay(cfg, h).store.disk.Holding? ==>
               Written(Replay(cfg, h).store.disk.value, d) && Restarts(First(t).s, S.Write(d), First(t).at)
    requires id in Replay(cfg, h).marks
             ==> KeyOf(Replay(cfg, h).marks[id], key) && Clock(h) < Replay(cfg, h).marks[id].until
    ensures id in Replay(cfg, h).marks && Replay(cfg, h).store.disk.Holding? && Closed(Run(cfg, t).t)
    ensures var k := Replay(cfg, h).marks[id];
            var disk := Replay(cfg, h).store.disk.value;
            && key in disk.deny
            && (DeniedUntil(First(t).s.t, key, k.until) <==> FileFits(disk, d) && DenialFits(key, disk.deny[key]))
            && (DeniedUntil(First(t).s.t, key, k.until) ==> Barred(cfg, Run(cfg, t), key, k.until, env))
            && (FileFits(disk, d) ==> Queued(First(t).s.t, k.cid))
  {
    RevokeOnlyAfterItIsOnDisk(cfg, h, id);
    var k := Replay(cfg, h).marks[id];
    HeldRestarts(cfg, Replay(cfg, h).store.disk.value, k, d, First(t).s, Clock(h), First(t).at, key);
    RunHealthy(cfg, t);
    if DeniedUntil(First(t).s.t, key, k.until) {
      DenialBars(cfg, key, k.until, t, env);
    }
  }
}
