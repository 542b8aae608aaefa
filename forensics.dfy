/** The security feed: the forensics permission, the investigation record keyed by
    transaction id (loading, then done with the returned text), the opaque insight
    service with its fixed fallback text, and the compliance-log filter. */
module Forensics {
  import opened Types
  import Constants

  // ----- Forensic scans -----

  /** The state recorded for one transaction's scan. */
  datatype Investigation = Loading | Done(text: string)

  /** Forensics is open to the two roles listed for it. */
  function IsForensicsAllowed(role: UserRole): (allowed: bool)
    ensures allowed <==> role == ADMIN || role == SECURITY_ANALYST
  {
    role in [ADMIN, SECURITY_ANALYST]
  }

  /** The first transaction of the list with the given id, if any. */
  function FindTransaction(txns: seq<Transaction>, id: string): (r: Option<Transaction>)
    ensures r.None? <==> forall i :: 0 <= i < |txns| ==> txns[i].id != id
    ensures r.Some? ==> r.value.id == id
    ensures r.Some? ==>
      exists i :: 0 <= i < |txns| && txns[i] == r.value && forall j :: 0 <= j < i ==> txns[j].id != id
  {
    if txns == [] then None
    else if txns[0].id == id then Some(txns[0])
    else
      var r := FindTransaction(txns[1..], id);
      if r.Some? then
        ghost var i :| 0 <= i < |txns[1..]| && txns[1..][i] == r.value && forall j :: 0 <= j < i ==> txns[1..][j].id != id;
        assert txns[i + 1] == r.value;
        assert forall j :: 0 < j < i + 1 ==> txns[j].id != id by {
          forall j | 0 < j < i + 1 ensures txns[j].id != id { assert txns[j] == txns[1..][j - 1]; }
        }
        r
      else
        assert forall i :: 0 < i < |txns| ==> txns[i].id != id by {
          forall i | 0 < i < |txns| ensures txns[i].id != id { assert txns[i] == txns[1..][i - 1]; }
        }
        r
  }

  /** What a click on a scan button leads to. */
  datatype ScanRequest =
    | Ignored                  // the system is locked: nothing happens
    | AccessDenied             // the role may not run forensics: an alert, nothing recorded
    | UnknownTransaction       // no transaction has that id: nothing happens
    | Scan(txn: Transaction)   // the scan is started for this transaction

  /** The checks a scan request passes through, in the handler's order: lock, role, lookup. */
  function RequestScan(isSystemLocked: bool, role: UserRole, txns: seq<Transaction>, txnId: string): (d: ScanRequest)
    ensures isSystemLocked ==> d == Ignored
    ensures !isSystemLocked && !(role == ADMIN || role == SECURITY_ANALYST) ==> d == AccessDenied
    ensures !isSystemLocked && (role == ADMIN || role == SECURITY_ANALYST) ==>
      (d == UnknownTransaction <==> forall i :: 0 <= i < |txns| ==> txns[i].id != txnId)
    ensures d.Scan? <==>
      !isSystemLocked && (role == ADMIN || role == SECURITY_ANALYST) && exists i :: 0 <= i < |txns| && txns[i].id == txnId
    ensures d.Scan? ==> d.txn.id == txnId && d.txn in txns
  {
    if isSystemLocked then Ignored
    else if !IsForensicsAllowed(role) then AccessDenied
    else match FindTransaction(txns, txnId)
      case None => UnknownTransaction
      case Some(t) => Scan(t)
  }

  /** On the transaction list the handler scans any listed id, not only the flagged ones. */
  lemma UnflaggedTransactionScanned()
    ensures Constants.MockTransactions()[1].status == COMPLETED
    ensures RequestScan(false, ADMIN, Constants.MockTransactions(), "TXN-9082") == Scan(Constants.MockTransactions()[1])
  {
    var ts := Constants.MockTransactions();
    assert ts[0].id != "TXN-9082" && ts[1..][0].id == "TXN-9082";
  }

  /** A junior clerk is refused before any lookup, and an unlisted id starts nothing. */
  lemma RefusedScansOnFixture()
    ensures RequestScan(false, JUNIOR_CLERK, Constants.MockTransactions(), "TXN-9081") == AccessDenied
    ensures RequestScan(false, SECURITY_ANALYST, Constants.MockTransactions(), "TXN-0000") == UnknownTransaction
  {
    var ts := Constants.MockTransactions();
    assert forall i :: 0 <= i < |ts| ==> ts[i].id[4] != '0';
  }

  /** The scan button is rendered only on the flagged transactions' cards, only for a role
      allowed forensics, never while locked, and not while that transaction's scan is loading. */
  predicate ScanButtonShown(isSystemLocked: bool, role: UserRole, txn: Transaction, inv: map<string, Investigation>)
  {
    !isSystemLocked && IsForensicsAllowed(role) && txn.status == FLAGGED && !(txn.id in inv && inv[txn.id] == Loading)
  }

  /** From the console every request is a scan of the card's own transaction: the button
      is never offered where the handler would ignore, deny or miss it. */
  lemma ScanButtonAlwaysScans(isSystemLocked: bool, role: UserRole, txn: Transaction, inv: map<string, Investigation>)
    requires txn in Constants.MockTransactions()
    requires ScanButtonShown(isSystemLocked, role, txn, inv)
    ensures RequestScan(isSystemLocked, role, Constants.MockTransactions(), txn.id) == Scan(txn)
  {
    var ts := Constants.MockTransactions();
    Constants.TransactionIdsDistinct();
    var k :| 0 <= k < |ts| && ts[k] == txn;
    var r := FindTransaction(ts, txn.id);
    assert r.Some?;
    var i :| 0 <= i < |ts| && ts[i] == r.value && forall j :: 0 <= j < i ==> ts[j].id != txn.id;
    assert ts[i].id == ts[k].id;
  }

  /** The first update of a started scan: its id's entry becomes Loading. */
  function MarkLoading(inv: map<string, Investigation>, txnId: string): (r: map<string, Investigation>)
    ensures txnId in r && r[txnId] == Loading
    ensures r.Keys == inv.Keys + {txnId}
    ensures forall id :: id in inv && id != txnId ==> r[id] == inv[id]
  {
    inv[txnId := Loading]
  }

  /** The second update, when the insight arrives: its id's entry becomes Done with the text. */
  function MarkDone(inv: map<string, Investigation>, txnId: string, text: string): (r: map<string, Investigation>)
    ensures txnId in r && r[txnId] == Done(text)
    ensures r.Keys == inv.Keys + {txnId}
    ensures forall id :: id in inv && id != txnId ==> r[id] == inv[id]
  {
    inv[txnId := Done(text)]
  }

  /** A re-scan overwrites the earlier result of the same transaction. */
  lemma RescanOverwrites(inv: map<string, Investigation>, txnId: string, first: string, second: string)
    ensures MarkDone(MarkLoading(MarkDone(inv, txnId, first), txnId), txnId, second) == MarkDone(inv, txnId, second)
  {
  }

  /** Scans of two different transactions resolve independently: whichever order the
      four updates interleave in, each id ends with its own text. */
  lemma DistinctScansIndependent(inv: map<string, Investigation>, a: string, b: string, ta: string, tb: string)
    requires a != b
    ensures var r := MarkDone(MarkDone(MarkLoading(MarkLoading(inv, a), b), a, ta), b, tb);
      r == MarkDone(MarkDone(MarkLoading(MarkLoading(inv, b), a), b, tb), a, ta) &&
      r[a] == Done(ta) && r[b] == Done(tb) &&
      forall id :: id in inv && id != a && id != b ==> r[id] == inv[id]
  {
    var both := inv[a := Done(ta)][b := Done(tb)];
    assert inv[a := Loading][b := Loading][a := Done(ta)] == inv[a := Done(ta)][b := Loading];
    assert inv[b := Loading][a := Loading][b := Done(tb)] == inv[a := Loading][b := Done(tb)];
    assert inv[a := Loading][b := Done(tb)][a := Done(ta)] == both;
  }

  // ----- The insight service, as an opaque collaborator -----

  /** What the text-generation service gave back. */
  datatype ServiceReply = Answered(text: string) | Failed

  const ForensicFallback := "### SYSTEM ALERT: AI Forensic Module Offline\nForensic investigation could not be completed via AI. Please manually review the SACCO transaction logs for anomalous velocity or location mismatches to ensure member safety."

  /** The insight text: the service's answer, or the fixed fallback when the call fails;
      the service never fails past this boundary. */
  function SecurityInsight(reply: ServiceReply): (insight: string)
    ensures reply.Failed? ==> insight == ForensicFallback
    ensures reply.Answered? ==> insight == reply.text
  {
    match reply
    case Answered(t) => t
    case Failed => ForensicFallback
  }

  // ----- Compliance-log filter -----

  const AllUsers := "All Users"

  predicate UserMatch(filterUser: string, log: SecurityEvent)
  {
    filterUser == AllUsers || log.user == filterUser
  }

  /** The logs shown for an operator filter, in log order (see FilterAppend and FilterUniform). */
  function FilteredLogs(logs: seq<SecurityEvent>, filterUser: string): (r: seq<SecurityEvent>)
    ensures |r| <= |logs|
    ensures forall e :: e in r ==> e in logs && UserMatch(filterUser, e)
    ensures forall e :: e in logs && UserMatch(filterUser, e) ==> e in r
    ensures filterUser == AllUsers ==> r == logs
  {
    if logs == [] then []
    else if UserMatch(filterUser, logs[0]) then [logs[0]] + FilteredLogs(logs[1..], filterUser)
    else FilteredLogs(logs[1..], filterUser)
  }

  /** Filtering distributes over concatenation. */
  lemma {:induction false} FilterAppend(a: seq<SecurityEvent>, b: seq<SecurityEvent>, filterUser: string)
    ensures FilteredLogs(a + b, filterUser) == FilteredLogs(a, filterUser) + FilteredLogs(b, filterUser)
  {
    if a == [] {
      assert a + b == b;
    } else {
      assert (a + b)[0] == a[0] && (a + b)[1..] == a[1..] + b;
      FilterAppend(a[1..], b, filterUser);
    }
  }

  /** A list none of whose entries match filters to nothing; one whose entries all match is kept whole. */
  lemma {:induction false} FilterUniform(logs: seq<SecurityEvent>, filterUser: string, keep: bool)
    requires forall i :: 0 <= i < |logs| ==> UserMatch(filterUser, logs[i]) == keep
    ensures FilteredLogs(logs, filterUser) == if keep then logs else []
  {
    if logs != [] {
      FilterUniform(logs[1..], filterUser, keep);
      if keep {
        assert logs == [logs[0]] + logs[1..];
      }
    }
  }

  /** Filtering by one operator shows exactly that operator's entries. */
  lemma FilterByOperator()
    ensures FilteredLogs(Constants.MockAuditLogs(), "Jenny Garcia") == Constants.MockAuditLogs()[5..7]
  {
    var logs, f := Constants.MockAuditLogs(), "Jenny Garcia";
    assert logs == logs[..5] + logs[5..7] + logs[7..];
    FilterAppend(logs[..5] + logs[5..7], logs[7..], f);
    FilterAppend(logs[..5], logs[5..7], f);
    JennyPieces();
  }

  lemma JennyPieces()
    ensures FilteredLogs(Constants.MockAuditLogs()[..5], "Jenny Garcia") == []
    ensures FilteredLogs(Constants.MockAuditLogs()[5..7], "Jenny Garcia") == Constants.MockAuditLogs()[5..7]
    ensures FilteredLogs(Constants.MockAuditLogs()[7..], "Jenny Garcia") == []
  {
    var logs, f := Constants.MockAuditLogs(), "Jenny Garcia";
    assert logs[..5] == [logs[0], logs[1], logs[2], logs[3], logs[4]];
    FilterUniform(logs[..5], f, false);
    assert logs[5..7] == [logs[5], logs[6]];
    FilterUniform(logs[5..7], f, true);
    assert logs[7..] == [logs[7]];
    FilterUniform(logs[7..], f, false);
  }

  // ----- The feed's component state -----

  /** The security feed as mounted for one signed-in user. */
  class SecurityFeed {
    const role: UserRole
    var investigations: map<string, Investigation>
    /** Ids whose insight request is outstanding (one entry per request). */
    var inFlight: multiset<string>
    /** The operator filter; no control of the feed ever changes it. */
    var filterUser: string

    constructor (role: UserRole)
      ensures this.role == role
      ensures investigations == map[] && inFlight == multiset{} && filterUser == AllUsers
    {
      this.role := role;
      investigations := map[];
      inFlight := multiset{};
      filterUser := AllUsers;
    }

    /** A scan request against the transaction fixture: when it passes the checks, the id's
        entry becomes Loading and an insight request is outstanding. */
    method RunInvestigation(txnId: string, isSystemLocked: bool) returns (d: ScanRequest)
      modifies this
      ensures d == RequestScan(isSystemLocked, role, Constants.MockTransactions(), txnId)
      ensures d.Scan? ==> investigations == MarkLoading(old(investigations), txnId) && inFlight == old(inFlight) + multiset{txnId}
      ensures !d.Scan? ==> investigations == old(investigations) && inFlight == old(inFlight)
      ensures filterUser == old(filterUser)
    {
      d := RequestScan(isSystemLocked, role, Constants.MockTransactions(), txnId);
      if d.Scan? {
        investigations := MarkLoading(investigations, txnId);
        inFlight := inFlight + multiset{txnId};
      }
    }

    /** The outstanding insight request for `txnId` completes. The result is recorded
        whatever the lock state is by then. */
    method InsightArrives(txnId: string, reply: ServiceReply)
      requires txnId in inFlight
      modifies this
      ensures investigations == MarkDone(old(investigations), txnId, SecurityInsight(reply))
      ensures inFlight == old(inFlight) - multiset{txnId}
      ensures filterUser == old(filterUser)
    {
      investigations := MarkDone(investigations, txnId, SecurityInsight(reply));
      inFlight := inFlight - multiset{txnId};
    }

    /** The compliance logs on display. */
    function DisplayedLogs(): (r: seq<SecurityEvent>)
      reads this
      ensures filterUser == AllUsers ==> r == Constants.MockAuditLogs()
    {
      FilteredLogs(Constants.MockAuditLogs(), filterUser)
    }
  }
}
