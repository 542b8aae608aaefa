/** The record and enumeration types of the staff console, and an Option wrapper. */
module Types {

  datatype Option<+T> = None | Some(value: T)

  /** The five staff ranks. */
  datatype UserRole = ADMIN | SECURITY_ANALYST | FINANCE_MANAGER | SUPPORT_LEAD | JUNIOR_CLERK

  /** A staff identity as the views see it. */
  datatype User = User(
    id: string,
    name: string,
    email: string,
    role: UserRole,
    avatar: string,
    permissions: seq<string>)

  /** An entry of the login directory: the identity together with its plaintext password.
      This whole record is what a successful login hands to the session. */
  datatype StaffRecord = StaffRecord(user: User, password: string)

  /** A cooperative member account; the balance is in integer cents. */
  datatype Member = Member(
    id: string,
    name: string,
    balance: int,
    isFrozen: bool,
    lastActive: string)

  datatype TxnStatus = PENDING | COMPLETED | FLAGGED | FAILED

  /** A member transaction; the amount is in integer cents. */
  datatype Transaction = Transaction(
    id: string,
    amount: int,
    currency: string,
    status: TxnStatus,
    timestamp: string,
    customer: string,
    customerID: string,
    riskScore: int,
    location: string,
    paymentMethod: string)

  datatype EventType = LOGIN | PRIVILEGE_ATTEMPT | DATA_EXPORT | CONFIG_CHANGE

  datatype Severity = LOW | MEDIUM | HIGH | CRITICAL

  /** An entry of the compliance (audit) log. */
  datatype SecurityEvent = SecurityEvent(
    id: string,
    eventType: EventType,
    severity: Severity,
    description: string,
    user: string,
    timestamp: string)
}
