/** What the CSV and PDF exports write, as rows of cells. Text rendering of
    clock readings and of the amount is not modelled: such cells carry the
    value itself. */
module Export {
  import opened Wrappers
  import opened Strings
  import opened Models

  datatype Cell =
    | Text(s: string)
    | Number(n: int)       // an integer written in decimal
    | IdRef(id: int)       // `#` followed by the id
    | Time(t: Timestamp)   // a clock reading as `%Y-%m-%d %H:%M`
    | Money(amount: string) // `$` and the amount with two decimals
    | Picture(path: string) // an embedded 150 x 75 image
    | Caption(text: string) // a paragraph under an image

  /** One row of a two-column PDF table. */
  datatype Row = Row(heading: string, cell: Cell)

  /** The full name of the approver, when the expense has one on record. */
  function ApproverName(e: Expense, users: map<int, User>): Option<string> {
    if e.approvedById.Some? && e.approvedById.value in users then Some(users[e.approvedById.value].fullName)
    else None
  }

  // ---------------------------------------------------------------- CSV

  function CsvHeader(): seq<Cell> {
    [Text("ID"), Text("Date"), Text("Purpose"), Text("Amount"), Text("Recipient"),
     Text("Status"), Text("Created By"), Text("Approved By"), Text("Approved Date")]
  }

  /** One data line: as wide as the header, status upper-cased, and `N/A`
      standing in for a missing approver and a missing approval date. */
  function CsvRow(e: Expense, users: map<int, User>): (row: seq<Cell>)
    requires e.creatorId in users
    ensures |row| == |CsvHeader()|
    ensures row[0] == Number(e.id) && row[1] == Time(e.createdAt)
    ensures row[2] == Text(e.purpose) && row[3] == Money(e.amount) && row[4] == Text(e.recipientName)
    ensures row[5] == Text(Upper(e.status)) && row[6] == Text(users[e.creatorId].fullName)
    ensures ApproverName(e, users).None? ==> row[7] == Text("N/A")
    ensures ApproverName(e, users).Some? ==> row[7] == Text(ApproverName(e, users).value)
    ensures e.approvedAt.None? <==> row[8] == Text("N/A")
    ensures e.approvedAt.Some? ==> row[8] == Time(e.approvedAt.value)
  {
    var approver := ApproverName(e, users);
    [Number(e.id), Time(e.createdAt), Text(e.purpose), Money(e.amount), Text(e.recipientName),
     Text(Upper(e.status)), Text(users[e.creatorId].fullName),
     if approver.Some? then Text(approver.value) else Text("N/A"),
     if e.approvedAt.Some? then Time(e.approvedAt.value) else Text("N/A")]
  }

  /** The data lines for `listed`, one per expense, in the same order. */
  function CsvBody(listed: seq<Expense>, users: map<int, User>): (rows: seq<seq<Cell>>)
    requires forall i :: 0 <= i < |listed| ==> listed[i].creatorId in users
    ensures |rows| == |listed|
    ensures forall i :: 0 <= i < |listed| ==> rows[i] == CsvRow(listed[i], users)
  {
    if listed == [] then []
    else CsvBody(listed[..|listed| - 1], users) + [CsvRow(listed[|listed| - 1], users)]
  }

  // ---------------------------------------------------------------- PDF

  /** The metadata table of the voucher: seven fixed rows, then approver
      and approval date when an approver is on record. */
  function DetailRows(e: Expense, users: map<int, User>): (rows: seq<Row>)
    requires e.creatorId in users
    requires ApproverName(e, users).Some? ==> e.approvedAt.Some?
    ensures |rows| == if ApproverName(e, users).Some? then 9 else 7
    ensures rows[0] == Row("Expense ID:", IdRef(e.id)) && rows[1] == Row("Date:", Time(e.createdAt))
    ensures rows[2] == Row("Status:", Text(Upper(e.status))) && rows[3] == Row("Purpose:", Text(e.purpose))
    ensures rows[4] == Row("Amount:", Money(e.amount)) && rows[5] == Row("Recipient:", Text(e.recipientName))
    ensures rows[6] == Row("Created By:", Text(users[e.creatorId].fullName))
    ensures ApproverName(e, users).Some? ==>
              && rows[7] == Row("Approved By:", Text(ApproverName(e, users).value))
              && rows[8] == Row("Approved Date:", Time(e.approvedAt.value))
  {
    var fixed := [Row("Expense ID:", IdRef(e.id)),
                  Row("Date:", Time(e.createdAt)),
                  Row("Status:", Text(Upper(e.status))),
                  Row("Purpose:", Text(e.purpose)),
                  Row("Amount:", Money(e.amount)),
                  Row("Recipient:", Text(e.recipientName)),
                  Row("Created By:", Text(users[e.creatorId].fullName))];
    var approver := ApproverName(e, users);
    if approver.Some? then
      fixed + [Row("Approved By:", Text(approver.value)), Row("Approved Date:", Time(e.approvedAt.value))]
    else fixed
  }

  /** A signature slot is printed when its reference is set and the file
      it names exists under the upload folder. */
  predicate Shown(reference: Option<string>, folder: string, files: set<string>) {
    Present(reference) && PathJoin(folder, reference.value) in files
  }

  /** The two rows of one slot: the label with the image, then an empty
      label with the signer's name. */
  function SlotRows(heading: string, reference: Option<string>, signer: string,
                    folder: string, files: set<string>): seq<Row>
  {
    if Shown(reference, folder, files) then
      [Row(heading, Picture(PathJoin(folder, reference.value))), Row("", Caption(signer))]
    else []
  }

  /** The signature table: recipient, employee and senior slots in that
      order, each present only when shown. */
  function SignatureRows(e: Expense, users: map<int, User>, folder: string, files: set<string>): seq<Row>
    requires e.creatorId in users
  {
    var approver := ApproverName(e, users);
    SlotRows("Recipient:", e.recipientSignature, e.recipientName, folder, files)
    + SlotRows("Employee:", e.employeeSignature, users[e.creatorId].fullName, folder, files)
    + SlotRows("Senior:", e.seniorSignature, if approver.Some? then approver.value else "N/A", folder, files)
  }

  /** The labels of the shown slots, in print order. */
  function ShownLabels(e: Expense, folder: string, files: set<string>): seq<string> {
    (if Shown(e.recipientSignature, folder, files) then ["Recipient:"] else [])
    + (if Shown(e.employeeSignature, folder, files) then ["Employee:"] else [])
    + (if Shown(e.seniorSignature, folder, files) then ["Senior:"] else [])
  }

  /** `rows` is `labels` laid out two rows each: the label on the first,
      an empty label on the second. */
  ghost predicate Laid(rows: seq<Row>, labels: seq<string>) {
    && |rows| == 2 * |labels|
    && (forall i :: 0 <= i < |labels| ==> rows[2 * i].heading == labels[i] && rows[2 * i + 1].heading == "")
  }

  /** Laying out two label lists one after the other lays out their
      concatenation. */
  lemma LaidAppend(a: seq<Row>, la: seq<string>, b: seq<Row>, lb: seq<string>)
    requires Laid(a, la) && Laid(b, lb)
    ensures Laid(a + b, la + lb)
  {
    forall i | |la| <= i < |la + lb|
      ensures (a + b)[2 * i].heading == (la + lb)[i] && (a + b)[2 * i + 1].heading == ""
    {
      assert (a + b)[2 * i] == b[2 * (i - |la|)];
      assert (a + b)[2 * i + 1] == b[2 * (i - |la|) + 1];
    }
  }

  /** Each shown slot contributes exactly two rows, labelled rows in the
      order recipient, employee, senior, each followed by an unlabelled
      caption row. */
  lemma SignatureRowsLayout(e: Expense, users: map<int, User>, folder: string, files: set<string>)
    requires e.creatorId in users
    ensures var rows := SignatureRows(e, users, folder, files);
            var labels := ShownLabels(e, folder, files);
            && |rows| == 2 * |labels|
            && (forall i :: 0 <= i < |labels| ==> rows[2 * i].heading == labels[i] && rows[2 * i + 1].heading == "")
  {
    var approver := ApproverName(e, users);
    var a := SlotRows("Recipient:", e.recipientSignature, e.recipientName, folder, files);
    var b := SlotRows("Employee:", e.employeeSignature, users[e.creatorId].fullName, folder, files);
    var c := SlotRows("Senior:", e.seniorSignature, if approver.Some? then approver.value else "N/A", folder, files);
    var la := if Shown(e.recipientSignature, folder, files) then ["Recipient:"] else [];
    var lb := if Shown(e.employeeSignature, folder, files) then ["Employee:"] else [];
    var lc := if Shown(e.seniorSignature, folder, files) then ["Senior:"] else [];
    assert Laid(a, la) && Laid(b, lb) && Laid(c, lc);
    LaidAppend(a, la, b, lb);
    LaidAppend(a + b, la + lb, c, lc);
  }

  /** With all three references set and on disk the voucher prints six
      signature rows, images and names in order. */
  lemma FullSignatureTable(e: Expense, users: map<int, User>, folder: string, files: set<string>)
    requires e.creatorId in users
    requires Shown(e.recipientSignature, folder, files) && Shown(e.employeeSignature, folder, files)
    requires Shown(e.seniorSignature, folder, files)
    ensures var rows := SignatureRows(e, users, folder, files);
            && |rows| == 6
            && rows[0] == Row("Recipient:", Picture(PathJoin(folder, e.recipientSignature.value)))
            && rows[1] == Row("", Caption(e.recipientName))
            && rows[2] == Row("Employee:", Picture(PathJoin(folder, e.employeeSignature.value)))
            && rows[3] == Row("", Caption(users[e.creatorId].fullName))
            && rows[4] == Row("Senior:", Picture(PathJoin(folder, e.seniorSignature.value)))
            && rows[5] == Row("", Caption(if ApproverName(e, users).Some? then ApproverName(e, users).value else "N/A"))
  {
  }
}
