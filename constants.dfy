/** The fixed fixtures of the console: the login directory, the role tables and the
    mock member, transaction and audit-log lists, with the invariants the logic relies on. */
module Constants {
  import opened Types

  /** The login directory, keyed by email. */
  function TestUsers(): map<string, StaffRecord>
  {
    map[
      "admin@securepaysacco.coop" := StaffRecord(
        User("u1", "Alexander V.", "admin@securepaysacco.coop", ADMIN,
             "https://picsum.photos/seed/admin/200",
             ["ALL_ACCESS", "USER_MGMT", "SYSTEM_CONFIG", "AUDIT_LOGS"]),
        "Admin123!"),
      "sarah.analyst@securepaysacco.coop" := StaffRecord(
        User("u2", "Sarah Chen", "sarah.analyst@securepaysacco.coop", SECURITY_ANALYST,
             "https://picsum.photos/seed/sarah/200",
             ["FRAUD_MONITOR", "TRANSACTION_RECOVERY", "RISK_ASSESSMENT"]),
        "Security2024!"),
      "mark.finance@securepaysacco.coop" := StaffRecord(
        User("u3", "Mark Henderson", "mark.finance@securepaysacco.coop", FINANCE_MANAGER,
             "https://picsum.photos/seed/mark/200",
             ["FINANCIAL_REPORTS", "PAYOUT_APPROVAL", "MERCHANT_SETTINGS"]),
        "Finance888"),
      "jenny.support@securepaysacco.coop" := StaffRecord(
        User("u4", "Jenny Garcia", "jenny.support@securepaysacco.coop", SUPPORT_LEAD,
             "https://picsum.photos/seed/jenny/200",
             ["REFUND_PROCESS", "CUSTOMER_VIEW", "TICKET_MGMT"]),
        "Helpdesk1"),
      "bob.clerk@securepaysacco.coop" := StaffRecord(
        User("u5", "Robert Smith", "bob.clerk@securepaysacco.coop", JUNIOR_CLERK,
             "https://picsum.photos/seed/bob/200",
             ["VIEW_ONLY_BASIC", "SEARCH_RECORDS"]),
        "EntryLevel")
    ]
  }

  function RoleDescriptions(): map<UserRole, string>
  {
    map[
      ADMIN := AdminDescription,
      SECURITY_ANALYST := AnalystDescription,
      FINANCE_MANAGER := FinanceDescription,
      SUPPORT_LEAD := SupportDescription,
      JUNIOR_CLERK := ClerkDescription
    ]
  }

  const AdminDescription := "Complete system oversight. Responsible for cryptographic key management, root-level configurations, and emergency fund overrides. Highest clearance level (Tier 5)."
  const AnalystDescription := "Focused on forensic investigation. Triggers AI-driven deep-packet analysis, mitigates flagged threats, and maintains Sacco network integrity. Level 4 clearance."
  const FinanceDescription := "Manages treasury operations. Oversees loan disbursements, member payout ledgers, and generates financial compliance snapshots. Level 3 clearance."
  const SupportDescription := "Primary point for member identity verification. Processes refunds, manages account recoveries, and handles high-priority member service incidents. Level 2 clearance."
  const ClerkDescription := "Entry-level administrative support. Has view-only access to basic transaction records and verified member searches. Strictly limited to Tier 1 data."

  function RoleLabels(): map<UserRole, string>
  {
    map[
      ADMIN := "SACCO Administrator",
      SECURITY_ANALYST := "Security Forensic Analyst",
      FINANCE_MANAGER := "Treasury Manager",
      SUPPORT_LEAD := "Member Services Lead",
      JUNIOR_CLERK := "SACCO Junior Staff"
    ]
  }

  /** The initial member list; balances in cents. */
  function MockMembers(): seq<Member>
  {
    [
      Member("M-401", "V. Petrov", 12500000, false, "2024-05-20 14:22"),
      Member("M-222", "L. White", 45020, false, "2024-05-20 14:25"),
      Member("M-902", "G. Schmidt", 890000, true, "2024-05-20 14:28"),
      Member("M-111", "A. Patel", 1540000, false, "2024-05-20 14:35"),
      Member("M-009", "Anonymous Member", 3200000, false, "2024-05-20 14:30")
    ]
  }

  /** The transaction list; amounts in cents. */
  function MockTransactions(): seq<Transaction>
  {
    [
      Transaction("TXN-9081", 1250000, "USD", FLAGGED, "2024-05-20 14:22", "V. Petrov", "M-401", 88, "Moscow, RU", "Sacco Wire"),
      Transaction("TXN-9082", 4520, "USD", COMPLETED, "2024-05-20 14:25", "L. White", "M-222", 2, "San Francisco, US", "Sacco Debit"),
      Transaction("TXN-9083", 89000, "EUR", PENDING, "2024-05-20 14:28", "G. Schmidt", "M-902", 15, "Berlin, DE", "Mobile Money"),
      Transaction("TXN-9084", 320000, "USD", FLAGGED, "2024-05-20 14:30", "Anonymous", "M-009", 92, "Lagos, NG", "Sacco Transfer"),
      Transaction("TXN-9085", 15000, "GBP", COMPLETED, "2024-05-20 14:35", "A. Patel", "M-111", 5, "London, UK", "Sacco Pay")
    ]
  }

  function MockAuditLogs(): seq<SecurityEvent>
  {
    [
      SecurityEvent("EV-100", LOGIN, LOW, "Standard SACCO session established.", "Alexander V.", "2024-05-20 09:00"),
      SecurityEvent("EV-101", DATA_EXPORT, MEDIUM, "Member savings ledger export for Audit Q2.", "Mark Henderson", "2024-05-20 10:15"),
      SecurityEvent("EV-102", PRIVILEGE_ATTEMPT, HIGH, "Blocked write attempt to member loan headers.", "Robert Smith", "2024-05-20 11:30"),
      SecurityEvent("EV-103", CONFIG_CHANGE, CRITICAL, "Firewall ruleset updated via Admin CLI.", "Alexander V.", "2024-05-20 12:45"),
      SecurityEvent("EV-104", LOGIN, LOW, "Remote SACCO node connection.", "Sarah Chen", "2024-05-20 13:20"),
      SecurityEvent("EV-105", DATA_EXPORT, MEDIUM, "Member metadata dump (GDPR compliant).", "Jenny Garcia", "2024-05-21 08:45"),
      SecurityEvent("EV-106", PRIVILEGE_ATTEMPT, HIGH, "Unauthorized access to SACCO root certificate store.", "Jenny Garcia", "2024-05-21 09:12"),
      SecurityEvent("EV-107", LOGIN, LOW, "Standard office node login.", "Sarah Chen", "2024-05-21 10:05")
    ]
  }

  // ----- Directory invariants -----

  /** Every directory key is the email of the record stored under it. */
  lemma DirectoryKeysAreEmails()
    ensures forall k :: k in TestUsers() ==> TestUsers()[k].user.email == k
  {
  }

  /** The directory holds exactly five identities, and their ids are pairwise distinct. */
  lemma DirectoryHasFiveDistinctIds()
    ensures |TestUsers()| == 5
    ensures forall k1, k2 :: k1 in TestUsers() && k2 in TestUsers() && TestUsers()[k1].user.id == TestUsers()[k2].user.id ==> k1 == k2
  {
    var d := TestUsers();
    assert d.Keys == {"admin@securepaysacco.coop", "sarah.analyst@securepaysacco.coop",
                      "mark.finance@securepaysacco.coop", "jenny.support@securepaysacco.coop",
                      "bob.clerk@securepaysacco.coop"};
  }

  /** Each role is held by exactly one identity of the directory. */
  lemma EachRoleHeldOnce(r: UserRole)
    ensures exists k :: k in TestUsers() && TestUsers()[k].user.role == r
    ensures forall k1, k2 :: k1 in TestUsers() && k2 in TestUsers() && TestUsers()[k1].user.role == r && TestUsers()[k2].user.role == r ==> k1 == k2
  {
    var d := TestUsers();
    match r
    case ADMIN => assert d["admin@securepaysacco.coop"].user.role == r;
    case SECURITY_ANALYST => assert d["sarah.analyst@securepaysacco.coop"].user.role == r;
    case FINANCE_MANAGER => assert d["mark.finance@securepaysacco.coop"].user.role == r;
    case SUPPORT_LEAD => assert d["jenny.support@securepaysacco.coop"].user.role == r;
    case JUNIOR_CLERK => assert d["bob.clerk@securepaysacco.coop"].user.role == r;
  }

  /** The label table has an entry for every role. */
  lemma RoleLabelsTotal(r: UserRole)
    ensures r in RoleLabels()
  {
  }

  /** The description table has an entry for every role. */
  lemma RoleDescriptionsTotal(r: UserRole)
    ensures r in RoleDescriptions()
  {
  }

  // ----- Member, transaction and audit-log invariants -----

  lemma MemberIdsDistinct()
    ensures forall i, j :: 0 <= i < j < |MockMembers()| ==> MockMembers()[i].id != MockMembers()[j].id
  {
  }

  lemma MemberBalancesNonNegative()
    ensures forall i :: 0 <= i < |MockMembers()| ==> MockMembers()[i].balance >= 0
  {
  }

  /** M-902 is the one member that starts frozen. */
  lemma OnlyM902StartsFrozen()
    ensures forall i :: 0 <= i < |MockMembers()| ==> (MockMembers()[i].isFrozen <==> MockMembers()[i].id == "M-902")
  {
  }

  lemma TransactionIdsDistinct()
    ensures forall i, j :: 0 <= i < j < |MockTransactions()| ==> MockTransactions()[i].id != MockTransactions()[j].id
  {
  }

  /** Exactly TXN-9081 and TXN-9084 are flagged. */
  lemma FlaggedTransactions()
    ensures forall i :: 0 <= i < |MockTransactions()| ==>
      (MockTransactions()[i].status == FLAGGED <==> MockTransactions()[i].id == "TXN-9081" || MockTransactions()[i].id == "TXN-9084")
  {
  }

  /** Every transaction's customer id names a member of the member list. */
  lemma TransactionCustomersAreMembers()
    ensures forall i :: 0 <= i < |MockTransactions()| ==>
      exists j :: 0 <= j < |MockMembers()| && MockMembers()[j].id == MockTransactions()[i].customerID
  {
    var ms, ts := MockMembers(), MockTransactions();
    assert ts[0].customerID == ms[0].id;
    assert ts[1].customerID == ms[1].id;
    assert ts[2].customerID == ms[2].id;
    assert ts[3].customerID == ms[4].id;
    assert ts[4].customerID == ms[3].id;
  }

  lemma RiskScoresInRange()
    ensures forall i :: 0 <= i < |MockTransactions()| ==> 0 <= MockTransactions()[i].riskScore <= 100
  {
  }

  /** Every audit-log operator is the display name of some directory identity. */
  lemma AuditOperatorsAreStaff()
    ensures forall i :: 0 <= i < |MockAuditLogs()| ==>
      exists k :: k in TestUsers() && TestUsers()[k].user.name == MockAuditLogs()[i].user
  {
    var d, logs := TestUsers(), MockAuditLogs();
    var alex, mark, bob, sarah, jenny := "admin@securepaysacco.coop", "mark.finance@securepaysacco.coop",
      "bob.clerk@securepaysacco.coop", "sarah.analyst@securepaysacco.coop", "jenny.support@securepaysacco.coop";
    assert d[alex].user.name == logs[0].user == logs[3].user;
    assert d[mark].user.name == logs[1].user;
    assert d[bob].user.name == logs[2].user;
    assert d[sarah].user.name == logs[4].user == logs[7].user;
    assert d[jenny].user.name == logs[5].user == logs[6].user;
  }
}
