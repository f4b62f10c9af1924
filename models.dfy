/** The two stored record types, `User` and `Expense`, with the boolean
    properties the handlers test on them. Roles and statuses are kept as the
    free strings the columns hold, so values outside the known ones can be
    talked about. */
module Models {
  import opened Wrappers
  import opened Strings

  /** A reading of the clock; only the order of readings is ever used. */
  type Timestamp = int

  const SeniorRole := "senior"
  const EmployeeRole := "employee"

  const Draft := "draft"
  const Pending := "pending"
  const Approved := "approved"
  const Rejected := "rejected"

  /** A user account. The password hash is not part of this model. */
  datatype User = User(id: int, username: string, email: string, fullName: string, role: string)

  predicate IsSenior(u: User) {
    u.role == SeniorRole
  }

  predicate IsEmployee(u: User) {
    u.role == EmployeeRole
  }

  /** One expense claim. `amount` is the submitted text; optional columns
      are `Option`s, `creatorId` is always set. */
  datatype Expense = Expense(
    id: int,
    purpose: string,
    amount: string,
    recipientName: string,
    date: Timestamp,
    status: string,
    creatorId: int,
    recipientSignature: Option<string>,
    employeeSignature: Option<string>,
    seniorSignature: Option<string>,
    approvedById: Option<int>,
    approvedAt: Option<Timestamp>,
    rejectionReason: Option<string>,
    createdAt: Timestamp,
    updatedAt: Timestamp)

  predicate IsDraft(e: Expense) { e.status == Draft }
  predicate IsPending(e: Expense) { e.status == Pending }
  predicate IsApproved(e: Expense) { e.status == Approved }
  predicate IsRejected(e: Expense) { e.status == Rejected }

  /** All three signature references are set and non-empty. */
  predicate HasAllSignatures(e: Expense) {
    Present(e.recipientSignature) && Present(e.employeeSignature) && Present(e.seniorSignature)
  }

  /** A freshly inserted row: the columns given to the constructor, `status`
      falling back to its column default `draft`, every approval column
      unset and the three timestamp columns filled at insertion time, here
      all from the one reading `now`. */
  function NewExpense(id: int, purpose: string, amount: string, recipientName: string, creatorId: int,
                      recipientSignature: Option<string>, employeeSignature: Option<string>,
                      status: Option<string>, now: Timestamp): (e: Expense)
    ensures e.id == id && e.purpose == purpose && e.amount == amount && e.recipientName == recipientName
    ensures e.creatorId == creatorId
    ensures e.recipientSignature == recipientSignature && e.employeeSignature == employeeSignature
    ensures status.None? ==> IsDraft(e)
    ensures status.Some? ==> e.status == status.value
    ensures e.seniorSignature.None? && e.approvedById.None? && e.approvedAt.None? && e.rejectionReason.None?
    ensures e.date == now && e.createdAt == now && e.updatedAt == now
  {
    Expense(id, purpose, amount, recipientName, now,
            if status.Some? then status.value else Draft,
            creatorId, recipientSignature, employeeSignature, None,
            None, None, None, now, now)
  }

  /** The two role tests never hold together, and a role other than the two
      known ones satisfies neither. */
  lemma RoleTests(u: User)
    ensures !(IsSenior(u) && IsEmployee(u))
    ensures IsSenior(u) <==> u.role == "senior"
    ensures IsEmployee(u) <==> u.role == "employee"
    ensures u.role != "senior" && u.role != "employee" ==> !IsSenior(u) && !IsEmployee(u)
  {
  }

  /** How many of the four status tests hold. */
  function StatusTestsHolding(e: Expense): nat {
    (if IsDraft(e) then 1 else 0) + (if IsPending(e) then 1 else 0)
    + (if IsApproved(e) then 1 else 0) + (if IsRejected(e) then 1 else 0)
  }

  /** For a known status exactly one status test holds; for any other
      string none does. */
  lemma StatusTests(e: Expense)
    ensures e.status in {"draft", "pending", "approved", "rejected"} ==> StatusTestsHolding(e) == 1
    ensures e.status !in {"draft", "pending", "approved", "rejected"} ==> StatusTestsHolding(e) == 0
  {
  }

  /** A row created without an explicit status is a draft and carries no
      approval data. */
  lemma DefaultStatusIsDraft(id: int, purpose: string, amount: string, recipientName: string, creatorId: int,
                             recipientSignature: Option<string>, employeeSignature: Option<string>, now: Timestamp)
    ensures var e := NewExpense(id, purpose, amount, recipientName, creatorId, recipientSignature, employeeSignature, None, now);
            IsDraft(e) && !IsPending(e) && !IsApproved(e) && !IsRejected(e) && !HasAllSignatures(e)
  {
  }

  /** `has_all_signatures` holds exactly when none of the three references
      is missing or empty. */
  lemma AllSignaturesMeansNoneMissing(e: Expense)
    ensures HasAllSignatures(e) <==>
      forall s :: s in [e.recipientSignature, e.employeeSignature, e.seniorSignature] ==> s.Some? && s.value != ""
  {
  }
}
