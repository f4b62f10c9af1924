/** The request handlers of the expense workflow over an in-memory store.
    The database tables become the fields of `PettyCash`: the expense rows
    by id, the counter the database draws new ids from, and the set of
    signature files present on disk. The user table, the upload folder and
    the behaviour of the image decoder do not change while the application
    runs and are constants. */
module App {
  import opened Wrappers
  import opened Strings
  import opened Models
  import opened Listing
  import opened Signatures
  import opened Export

  /** The fields posted by the create form; a field missing from the
      request is `None`. */
  datatype CreateForm = CreateForm(
    purpose: Option<string>,
    amount: Option<string>,
    recipientName: Option<string>,
    recipientSignature: Option<string>,
    employeeSignature: Option<string>)

  /** All five fields are present and non-empty. */
  predicate Complete(form: CreateForm) {
    && Present(form.purpose) && Present(form.amount) && Present(form.recipientName)
    && Present(form.recipientSignature) && Present(form.employeeSignature)
  }

  /** How a state-changing handler ends: refused for the actor's role, no
      such expense (404), a status that does not allow the step, missing
      input, a signature image that cannot be decoded (a server error), or
      success for the expense with the given id. */
  datatype Outcome = Forbidden | NotFound | InvalidState | Invalid | DecodeFailed | Ok(id: int)

  /** How a read of one expense ends: no such expense (404), refused, or
      the value. */
  datatype Access<T> = Missing | Denied | Granted(value: T)

  /** The two tables of the PDF voucher. */
  datatype Voucher = Voucher(details: seq<Row>, signatures: seq<Row>)

  class PettyCash {
    const users: map<int, User>
    const uploadFolder: string
    /** Whether base64 decoding and opening as an image succeed on a
        payload whose data-URL header has been removed. */
    const decodes: string -> bool

    var expenses: map<int, Expense>
    var nextId: int
    var files: set<string>

    /** Where the image saved as `<kind>_<token>.png` is written. */
    function SignaturePath(kind: string, token: string): string {
      PathJoin(uploadFolder, SignatureFileName(kind, token))
    }

    /** A set reference names a file in `files`. */
    ghost predicate OnDisk(reference: Option<string>, files: set<string>) {
      reference.Some? ==> PathJoin(uploadFolder, reference.value) in files
    }

    /** What holds of every stored expense: the record invariants of the
        workflow (pending carries no review data, approved carries all
        three signatures and an approver, rejected carries a reason), and
        its references to users and to files resolve. Files are only ever
        added, by the application itself, so a reference that resolved once
        keeps resolving. */
    ghost predicate Stored(k: int, e: Expense, nextId: int, files: set<string>) {
      && e.id == k && 1 <= k < nextId
      && e.creatorId in users
      && (e.approvedById.Some? ==> e.approvedById.value in users)
      && (e.approvedById.Some? <==> e.approvedAt.Some?)
      && Present(e.recipientSignature) && Present(e.employeeSignature)
      && OnDisk(e.recipientSignature, files) && OnDisk(e.employeeSignature, files)
      && OnDisk(e.seniorSignature, files)
      && (IsPending(e) || IsApproved(e) || IsRejected(e))
      && (IsPending(e) ==> e.seniorSignature.None? && e.approvedById.None? && e.rejectionReason.None?)
      && (IsApproved(e) ==> HasAllSignatures(e) && e.approvedById.Some? && e.rejectionReason.None?)
      && (IsRejected(e) ==> Present(e.rejectionReason) && e.seniorSignature.None? && e.approvedById.None?)
    }

    ghost predicate Valid()
      reads this
    {
      && 1 <= nextId
      && (forall u :: u in users ==> users[u].id == u)
      && (forall k :: k in expenses ==> Stored(k, expenses[k], nextId, files))
    }

    /** More ids drawn and more files written keep a stored row valid. */
    lemma StoredGrows(k: int, e: Expense, nextId: int, files: set<string>, nextId': int, files': set<string>)
      requires Stored(k, e, nextId, files) && nextId <= nextId' && files <= files'
      ensures Stored(k, e, nextId', files')
    {
    }

    /** Approving a stored pending row with a senior image now on disk and
        an existing approver gives a stored approved row. */
    lemma ApprovalStored(k: int, e: Expense, nextId: int, files: set<string>, files': set<string>,
                         reference: string, approver: int, now: Timestamp)
      requires Stored(k, e, nextId, files) && IsPending(e) && files <= files'
      requires reference != "" && PathJoin(uploadFolder, reference) in files' && approver in users
      ensures Stored(k, e.(status := Approved, seniorSignature := Some(reference),
                           approvedById := Some(approver), approvedAt := Some(now), updatedAt := now),
                     nextId, files')
    {
    }

    /** The actor of a request is the stored account of the session. */
    predicate LoggedIn(actor: User) {
      actor.id in users && users[actor.id] == actor
    }

    /** The guards of approve and reject that come before the input check:
        a senior actor, an existing expense, status pending. */
    ghost predicate Reviewable(actor: User, id: int)
      reads this
    {
      IsSenior(actor) && id in expenses && IsPending(expenses[id])
    }

    /** The optional payload is present and decodes as an image. */
    predicate Decodes(payload: Option<string>) {
      payload.Some? && decodes(StripDataUrlPrefix(payload.value))
    }

    constructor (users: map<int, User>, uploadFolder: string, files: set<string>, decodes: string -> bool)
      requires forall u :: u in users ==> users[u].id == u
      ensures Valid()
      ensures this.users == users && this.uploadFolder == uploadFolder && this.decodes == decodes
      ensures this.files == files && expenses == map[]
    {
      this.users := users;
      this.uploadFolder := uploadFolder;
      this.decodes := decodes;
      this.files := files;
      expenses := map[];
      nextId := 1;
    }

    /** Stores a signature image as `<kind>_<token>.png` under the upload
        folder and returns that name; nothing is written when the payload
        does not decode. */
    method SaveSignature(payload: string, kind: string, token: string) returns (name: Option<string>)
      modifies this`files
      ensures decodes(StripDataUrlPrefix(payload)) ==> name == Some(SignatureFileName(kind, token))
      ensures !decodes(StripDataUrlPrefix(payload)) ==> name == None
      ensures files == if name.Some? then old(files) + {SignaturePath(kind, token)} else old(files)
    {
      var data := StripDataUrlPrefix(payload);
      if !decodes(data) {
        return None;
      }
      var filename := SignatureFileName(kind, token);
      files := files + {PathJoin(uploadFolder, filename)};
      name := Some(filename);
    }

    /** Files a new claim. A senior is refused first; then all five fields
        must be non-empty; then both images are saved, recipient first, so
        a recipient image may be left behind when the employee image fails.
        On success exactly one expense is added under a fresh id, pending,
        created by the actor, with both signature references set and no
        review data. */
    method Create(actor: User, form: CreateForm, recipientToken: string, employeeToken: string, now: Timestamp)
      returns (outcome: Outcome)
      requires Valid() && LoggedIn(actor)
      modifies this`expenses, this`nextId, this`files
      ensures Valid()
      ensures outcome == Forbidden <==> IsSenior(actor)
      ensures outcome == Invalid <==> !IsSenior(actor) && !Complete(form)
      ensures outcome == DecodeFailed <==>
                !IsSenior(actor) && Complete(form)
                && !(Decodes(form.recipientSignature) && Decodes(form.employeeSignature))
      ensures outcome.Ok? <==>
                !IsSenior(actor) && Complete(form)
                && Decodes(form.recipientSignature) && Decodes(form.employeeSignature)
      ensures !outcome.Ok? ==> expenses == old(expenses) && nextId == old(nextId)
      ensures outcome.Ok? ==>
                && outcome.id == old(nextId) && outcome.id !in old(expenses) && nextId == old(nextId) + 1
                && expenses == old(expenses)[outcome.id := NewExpense(
                     outcome.id, form.purpose.value, form.amount.value, form.recipientName.value, actor.id,
                     Some(SignatureFileName("recipient", recipientToken)),
                     Some(SignatureFileName("employee", employeeToken)),
                     Some(Pending), now)]
      ensures outcome.Ok? ==>
                var e := expenses[outcome.id];
                && IsPending(e) && e.creatorId == actor.id
                && Present(e.recipientSignature) && Present(e.employeeSignature)
                && e.seniorSignature.None? && e.approvedById.None? && e.approvedAt.None?
                && e.rejectionReason.None?
      ensures files == old(files)
                + (if !IsSenior(actor) && Complete(form) && Decodes(form.recipientSignature)
                   then {SignaturePath("recipient", recipientToken)} else {})
                + (if outcome.Ok? then {SignaturePath("employee", employeeToken)} else {})
    {
      if IsSenior(actor) {
        return Forbidden;
      }
      if !Complete(form) {
        return Invalid;
      }
      var recipientRef := SaveSignature(form.recipientSignature.value, "recipient", recipientToken);
      if recipientRef.None? {
        return DecodeFailed;
      }
      var employeeRef := SaveSignature(form.employeeSignature.value, "employee", employeeToken);
      if employeeRef.None? {
        return DecodeFailed;
      }
      var id := nextId;
      var e := NewExpense(id, form.purpose.value, form.amount.value, form.recipientName.value, actor.id,
                          recipientRef, employeeRef, Some(Pending), now);
      expenses := expenses[id := e];
      nextId := nextId + 1;
      outcome := Ok(id);
    }

    /** Approves a pending expense. Guards, in order: the actor is a senior
        (so a non-senior never learns whether the id exists), the expense
        exists, it is pending, a senior signature is given, and the image
        decodes. Only success changes anything: status, senior signature,
        approver, approval time and the update time. Approved and rejected
        expenses are never changed. */
    method Approve(actor: User, id: int, seniorSignature: Option<string>, token: string, now: Timestamp)
      returns (outcome: Outcome)
      requires Valid() && LoggedIn(actor)
      modifies this`expenses, this`files
      ensures Valid()
      ensures outcome == Forbidden <==> !IsSenior(actor)
      ensures outcome == NotFound <==> IsSenior(actor) && id !in old(expenses)
      ensures outcome == InvalidState <==> IsSenior(actor) && id in old(expenses) && !IsPending(old(expenses)[id])
      ensures outcome == Invalid <==> old(Reviewable(actor, id)) && !Present(seniorSignature)
      ensures outcome == DecodeFailed <==> old(Reviewable(actor, id)) && Present(seniorSignature) && !Decodes(seniorSignature)
      ensures outcome.Ok? <==> old(Reviewable(actor, id)) && Present(seniorSignature) && Decodes(seniorSignature)
      ensures !outcome.Ok? ==> expenses == old(expenses) && files == old(files)
      ensures outcome.Ok? ==>
                && outcome.id == id
                && expenses == old(expenses)[id := old(expenses)[id].(
                     status := Approved,
                     seniorSignature := Some(SignatureFileName("senior", token)),
                     approvedById := Some(actor.id),
                     approvedAt := Some(now),
                     updatedAt := now)]
                && files == old(files) + {SignaturePath("senior", token)}
                && HasAllSignatures(expenses[id])
      ensures id in old(expenses) && (IsApproved(old(expenses)[id]) || IsRejected(old(expenses)[id])) ==>
                expenses == old(expenses)
    {
      if !IsSenior(actor) {
        return Forbidden;
      }
      if id !in expenses {
        return NotFound;
      }
      var e := expenses[id];
      if e.status != Pending {
        return InvalidState;
      }
      if !Present(seniorSignature) {
        return Invalid;
      }
      var seniorRef := SaveSignature(seniorSignature.value, "senior", token);
      if seniorRef.None? {
        return DecodeFailed;
      }
      ghost var before := expenses;
      forall k | k in before
        ensures Stored(k, before[k], nextId, files)
      {
        StoredGrows(k, before[k], nextId, old(files), nextId, files);
      }
      ApprovalStored(id, e, nextId, old(files), files, seniorRef.value, actor.id, now);
      expenses := expenses[id := e.(status := Approved, seniorSignature := seniorRef,
                                    approvedById := Some(actor.id), approvedAt := Some(now), updatedAt := now)];
      outcome := Ok(id);
    }

    /** Rejects a pending expense, with the same role, existence and status
        guards as approval, then a non-empty reason. Only success changes
        anything: status, reason and the update time; the senior signature
        and the approval columns stay as they were. */
    method Reject(actor: User, id: int, reason: Option<string>, now: Timestamp) returns (outcome: Outcome)
      requires Valid() && LoggedIn(actor)
      modifies this`expenses
      ensures Valid()
      ensures outcome == Forbidden <==> !IsSenior(actor)
      ensures outcome == NotFound <==> IsSenior(actor) && id !in old(expenses)
      ensures outcome == InvalidState <==> IsSenior(actor) && id in old(expenses) && !IsPending(old(expenses)[id])
      ensures outcome == Invalid <==> old(Reviewable(actor, id)) && !Present(reason)
      ensures outcome.Ok? <==> old(Reviewable(actor, id)) && Present(reason)
      ensures !outcome.Ok? ==> expenses == old(expenses)
      ensures outcome.Ok? ==>
                && outcome.id == id
                && expenses == old(expenses)[id := old(expenses)[id].(
                     status := Rejected, rejectionReason := reason, updatedAt := now)]
                && expenses[id].seniorSignature == old(expenses)[id].seniorSignature
                && expenses[id].approvedById == old(expenses)[id].approvedById
                && expenses[id].approvedAt == old(expenses)[id].approvedAt
      ensures id in old(expenses) && (IsApproved(old(expenses)[id]) || IsRejected(old(expenses)[id])) ==>
                expenses == old(expenses)
    {
      if !IsSenior(actor) {
        return Forbidden;
      }
      if id !in expenses {
        return NotFound;
      }
      var e := expenses[id];
      if e.status != Pending {
        return InvalidState;
      }
      if !Present(reason) {
        return Invalid;
      }
      expenses := expenses[id := e.(status := Rejected, rejectionReason := reason, updatedAt := now)];
      outcome := Ok(id);
    }

    /** The detail page: a 404 for an unknown id (checked before the
        permission, for every role), then refused unless the actor may
        view the expense. */
    method Detail(actor: User, id: int) returns (r: Access<Expense>)
      ensures r == Missing <==> id !in expenses
      ensures r == Denied <==> id in expenses && !CanView(actor, expenses[id])
      ensures r.Granted? <==> id in expenses && CanView(actor, expenses[id])
      ensures r.Granted? ==> r.value == expenses[id]
    {
      if id !in expenses {
        return Missing;
      }
      var e := expenses[id];
      if !IsSenior(actor) && e.creatorId != actor.id {
        return Denied;
      }
      r := Granted(e);
    }

    /** Every stored id lies below the next id to be drawn. */
    ghost predicate IdsBelowNext()
      reads this
    {
      forall k :: k in expenses ==> 1 <= k < nextId
    }

    /** The rows matching a query, newest first. The table is scanned in
        id order. */
    method Select(f: Filter) returns (r: seq<Expense>)
      requires KeyedById(expenses) && IdsBelowNext()
      ensures Lists(r, expenses, f)
    {
      r := [];
      ghost var chosen: set<int> := {};
      var id := 1;
      while id < nextId
        invariant forall k :: k in chosen <==> k in expenses && k < id && Matches(f, expenses[k])
        invariant forall i :: 0 <= i < |r| ==> r[i].id in chosen && expenses[r[i].id] == r[i] && Matches(f, r[i])
        invariant forall k :: k in chosen ==> expenses[k] in r
        invariant DistinctIds(r) && NewestFirst(r)
        invariant |r| == |chosen|
      {
        if id in expenses && Matches(f, expenses[id]) {
          r := InsertByDate(r, expenses[id]);
          chosen := chosen + {id};
        }
        id := id + 1;
      }
      assert forall k :: k in Selected(expenses, f) <==> k in chosen;
      assert chosen == Selected(expenses, f);
    }

    /** Puts `e` into a newest-first list in front of the first row that
        is not newer than it. */
    static method InsertByDate(r: seq<Expense>, e: Expense) returns (s: seq<Expense>)
      requires NewestFirst(r) && DistinctIds(r)
      requires forall i :: 0 <= i < |r| ==> r[i].id != e.id
      ensures |s| == |r| + 1 && NewestFirst(s) && DistinctIds(s)
      ensures forall i :: 0 <= i < |s| ==> s[i] == e || s[i] in r
      ensures e in s && forall x :: x in r ==> x in s
    {
      var p := 0;
      while p < |r| && r[p].createdAt > e.createdAt
        invariant 0 <= p <= |r|
        invariant forall i :: 0 <= i < p ==> r[i].createdAt > e.createdAt
      {
        p := p + 1;
      }
      InsertNewest(r, p, e);
      InsertKeeps(r, p, e);
      s := r[..p] + [e] + r[p..];
    }

    /** The expense list for an optional `status` argument: what the actor
        may view, restricted to that status unless it is `all`. */
    method ExpenseList(actor: User, status: Option<string>) returns (r: seq<Expense>)
      requires Valid()
      ensures Lists(r, expenses, ListFilter(actor, StatusArgument(status)))
      ensures forall i :: 0 <= i < |r| ==>
                CanView(actor, r[i]) && (StatusArgument(status) == "all" || r[i].status == StatusArgument(status))
      ensures forall k :: k in expenses && CanView(actor, expenses[k])
                          && (StatusArgument(status) == "all" || expenses[k].status == StatusArgument(status))
                          ==> expenses[k] in r
    {
      assert KeyedById(expenses) && IdsBelowNext();
      r := Select(ListFilter(actor, StatusArgument(status)));
    }

    /** The dashboard: the pending queue for a senior, own expenses for
        anyone else. */
    method Dashboard(actor: User) returns (r: seq<Expense>)
      requires Valid()
      ensures Lists(r, expenses, DashboardFilter(actor))
      ensures forall i :: 0 <= i < |r| ==> if IsSenior(actor) then IsPending(r[i]) else r[i].creatorId == actor.id
      ensures forall k :: k in expenses && (if IsSenior(actor) then IsPending(expenses[k]) else expenses[k].creatorId == actor.id)
                          ==> expenses[k] in r
    {
      assert KeyedById(expenses) && IdsBelowNext();
      r := Select(DashboardFilter(actor));
    }

    /** The CSV export: the header and then one line per selected expense
        (approved ones for a senior, own ones for anyone else), newest
        first. */
    method ExportCsv(actor: User) returns (rows: seq<seq<Cell>>)
      requires Valid()
      ensures |rows| == 1 + |Selected(expenses, CsvFilter(actor))| && rows[0] == CsvHeader()
      ensures IsSenior(actor) ==> |rows| == 1 + |set k | k in expenses && IsApproved(expenses[k])|
      ensures !IsSenior(actor) ==> |rows| == 1 + |set k | k in expenses && expenses[k].creatorId == actor.id|
      ensures exists listed: seq<Expense> :: && Lists(listed, expenses, CsvFilter(actor))
                               && (forall i :: 0 <= i < |listed| ==> listed[i].creatorId in users)
                               && rows == [CsvHeader()] + CsvBody(listed, users)
    {
      assert KeyedById(expenses) && IdsBelowNext();
      var listed := Select(CsvFilter(actor));
      assert forall i :: 0 <= i < |listed| ==> listed[i].creatorId in users by {
        forall i | 0 <= i < |listed|
          ensures listed[i].creatorId in users
        {
          assert Stored(listed[i].id, expenses[listed[i].id], nextId, files);
        }
      }
      rows := WriteCsv(listed, users);
      CsvSelection(expenses, actor);
    }

    /** Writes the header and then one line per expense, in order. */
    static method WriteCsv(listed: seq<Expense>, users: map<int, User>) returns (rows: seq<seq<Cell>>)
      requires forall i :: 0 <= i < |listed| ==> listed[i].creatorId in users
      ensures rows == [CsvHeader()] + CsvBody(listed, users)
    {
      rows := [CsvHeader()];
      var i := 0;
      while i < |listed|
        invariant 0 <= i <= |listed|
        invariant rows == [CsvHeader()] + CsvBody(listed[..i], users)
      {
        assert listed[..i + 1][..i] == listed[..i];
        rows := rows + [CsvRow(listed[i], users)];
        i := i + 1;
      }
      assert listed[..|listed|] == listed;
    }

    /** The PDF voucher: the same 404 and permission checks as the detail
        page, then the metadata table and the signature table, both built
        by appending rows. */
    method ExportPdf(actor: User, id: int) returns (r: Access<Voucher>)
      requires Valid()
      ensures r == Missing <==> id !in expenses
      ensures r == Denied <==> id in expenses && !CanView(actor, expenses[id])
      ensures r.Granted? <==> id in expenses && CanView(actor, expenses[id])
      ensures r.Granted? ==>
                r.value == Voucher(DetailRows(expenses[id], users), SignatureRows(expenses[id], users, uploadFolder, files))
      ensures r.Granted? && IsApproved(expenses[id]) ==> |r.value.details| == 9 && |r.value.signatures| == 6
    {
      if id !in expenses {
        return Missing;
      }
      var e := expenses[id];
      if !IsSenior(actor) && e.creatorId != actor.id {
        return Denied;
      }
      var data := [Row("Expense ID:", IdRef(e.id)),
                   Row("Date:", Time(e.createdAt)),
                   Row("Status:", Text(Upper(e.status))),
                   Row("Purpose:", Text(e.purpose)),
                   Row("Amount:", Money(e.amount)),
                   Row("Recipient:", Text(e.recipientName)),
                   Row("Created By:", Text(users[e.creatorId].fullName))];
      var approver := ApproverName(e, users);
      if approver.Some? {
        data := data + [Row("Approved By:", Text(approver.value))];
        data := data + [Row("Approved Date:", Time(e.approvedAt.value))];
      }

      var sigData: seq<Row> := [];
      if Present(e.recipientSignature) {
        var path := PathJoin(uploadFolder, e.recipientSignature.value);
        if path in files {
          sigData := sigData + [Row("Recipient:", Picture(path))];
          sigData := sigData + [Row("", Caption(e.recipientName))];
        }
      }
      if Present(e.employeeSignature) {
        var path := PathJoin(uploadFolder, e.employeeSignature.value);
        if path in files {
          sigData := sigData + [Row("Employee:", Picture(path))];
          sigData := sigData + [Row("", Caption(users[e.creatorId].fullName))];
        }
      }
      if Present(e.seniorSignature) {
        var path := PathJoin(uploadFolder, e.seniorSignature.value);
        if path in files {
          sigData := sigData + [Row("Senior:", Picture(path))];
          sigData := sigData + [Row("", Caption(if approver.Some? then approver.value else "N/A"))];
        }
      }
      if IsApproved(e) {
        FullSignatureTable(e, users, uploadFolder, files);
      }
      r := Granted(Voucher(data, sigData));
    }
  }
}
