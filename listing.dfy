/** Who may see which expenses: the view/export permission and the row
    selections behind the expense list, the dashboard and the CSV export.
    A database query `filter_by(creator_id=…, status=…)` is a `Filter`
    whose absent fields are not constrained. */
module Listing {
  import opened Wrappers
  import opened Models

  datatype Filter = Filter(creator: Option<int>, status: Option<string>)

  predicate Matches(f: Filter, e: Expense) {
    && (f.creator.Some? ==> e.creatorId == f.creator.value)
    && (f.status.Some? ==> e.status == f.status.value)
  }

  /** The permission test of the detail page and of the PDF export: it
      refuses a non-senior who did not create the expense. */
  predicate CanView(actor: User, e: Expense) {
    !(!IsSenior(actor) && e.creatorId != actor.id)
  }

  /** Viewing is allowed exactly to seniors and to the creator; so an
      employee never sees someone else's expense. */
  lemma ViewRule(actor: User, e: Expense)
    ensures CanView(actor, e) <==> IsSenior(actor) || e.creatorId == actor.id
    ensures IsEmployee(actor) && e.creatorId != actor.id ==> !CanView(actor, e)
  {
  }

  /** The `status` query argument, defaulting to `all` when absent. */
  function StatusArgument(arg: Option<string>): string {
    if arg.Some? then arg.value else "all"
  }

  /** The query of the expense list: for `all`, every expense for a senior
      and their own for anyone else; any other value also requires the
      status to equal it. */
  function ListFilter(actor: User, status: string): (f: Filter)
    ensures forall e :: Matches(f, e) <==> CanView(actor, e) && (status == "all" || e.status == status)
  {
    if status == "all" then
      if IsSenior(actor) then Filter(None, None) else Filter(Some(actor.id), None)
    else
      if IsSenior(actor) then Filter(None, Some(status)) else Filter(Some(actor.id), Some(status))
  }

  /** The dashboard: the approval queue (pending expenses) for a senior,
      their own expenses of any status for anyone else. */
  function DashboardFilter(actor: User): (f: Filter)
    ensures forall e :: Matches(f, e) <==> if IsSenior(actor) then IsPending(e) else e.creatorId == actor.id
  {
    if IsSenior(actor) then Filter(None, Some(Pending)) else Filter(Some(actor.id), None)
  }

  /** The CSV export: approved expenses for a senior, their own expenses of
      any status for anyone else. */
  function CsvFilter(actor: User): (f: Filter)
    ensures forall e :: Matches(f, e) <==> if IsSenior(actor) then IsApproved(e) else e.creatorId == actor.id
  {
    if IsSenior(actor) then Filter(None, Some(Approved)) else Filter(Some(actor.id), None)
  }

  /** The unfiltered list shows exactly the expenses the actor may open. */
  lemma ListAllIsViewable(actor: User, e: Expense)
    ensures Matches(ListFilter(actor, "all"), e) <==> CanView(actor, e)
  {
  }

  /** Only `is_senior` is ever tested, so a user whose role is neither of
      the two known values is treated exactly like an employee. */
  lemma UnknownRoleActsAsEmployee(u: User, status: string, e: Expense)
    requires u.role != "senior" && u.role != "employee"
    ensures var asEmployee := u.(role := EmployeeRole);
            && ListFilter(u, status) == ListFilter(asEmployee, status)
            && DashboardFilter(u) == DashboardFilter(asEmployee)
            && CsvFilter(u) == CsvFilter(asEmployee)
            && CanView(u, e) == CanView(asEmployee, e)
  {
  }

  /** `order_by(created_at.desc())` */
  predicate NewestFirst(r: seq<Expense>) {
    forall i, j :: 0 <= i < j < |r| ==> r[i].createdAt >= r[j].createdAt
  }

  /** Every row is stored under its own id. */
  ghost predicate KeyedById(m: map<int, Expense>) {
    forall k :: k in m ==> m[k].id == k
  }

  /** No two rows of `r` share an id. */
  ghost predicate DistinctIds(r: seq<Expense>) {
    forall i, j :: 0 <= i < j < |r| ==> r[i].id != r[j].id
  }

  /** Where each row of `r[..p] + [e] + r[p..]` comes from. */
  lemma InsertIndex(r: seq<Expense>, p: nat, e: Expense)
    requires p <= |r|
    ensures var s := r[..p] + [e] + r[p..];
            && |s| == |r| + 1 && s[p] == e
            && (forall i :: 0 <= i < p ==> s[i] == r[i])
            && (forall i :: p < i < |s| ==> s[i] == r[i - 1])
  {
  }

  /** Putting `e` in front of the first row that is not newer than it
      keeps a newest-first list ordered and free of repeated ids. */
  lemma {:induction false} InsertNewest(r: seq<Expense>, p: nat, e: Expense)
    requires NewestFirst(r) && DistinctIds(r) && p <= |r|
    requires forall i :: 0 <= i < p ==> r[i].createdAt > e.createdAt
    requires p < |r| ==> r[p].createdAt <= e.createdAt
    requires forall i :: 0 <= i < |r| ==> r[i].id != e.id
    ensures NewestFirst(r[..p] + [e] + r[p..]) && DistinctIds(r[..p] + [e] + r[p..])
  {
    InsertIndex(r, p, e);
  }

  /** The same insertion adds `e` and loses no row of `r`. */
  lemma {:induction false} InsertKeeps(r: seq<Expense>, p: nat, e: Expense)
    requires p <= |r|
    ensures var s := r[..p] + [e] + r[p..];
            && (forall i :: 0 <= i < |s| ==> s[i] == e || s[i] in r)
            && e in s && (forall x :: x in r ==> x in s)
  {
    var s := r[..p] + [e] + r[p..];
    InsertIndex(r, p, e);
    forall x | x in r
      ensures x in s
    {
      var i :| 0 <= i < |r| && r[i] == x;
      if i < p { assert s[i] == x; } else { assert s[i + 1] == x; }
    }
  }

  /** The ids of the stored expenses a filter keeps. */
  function Selected(m: map<int, Expense>, f: Filter): set<int> {
    set k | k in m && Matches(f, m[k])
  }

  /** The rows the CSV export selects: the approved ones for a senior, the
      actor's own for anyone else. */
  lemma CsvSelection(m: map<int, Expense>, actor: User)
    ensures IsSenior(actor) ==> Selected(m, CsvFilter(actor)) == set k | k in m && IsApproved(m[k])
    ensures !IsSenior(actor) ==> Selected(m, CsvFilter(actor)) == set k | k in m && m[k].creatorId == actor.id
  {
    if IsSenior(actor) {
      assert forall k :: k in Selected(m, CsvFilter(actor)) <==> k in m && IsApproved(m[k]);
    } else {
      assert forall k :: k in Selected(m, CsvFilter(actor)) <==> k in m && m[k].creatorId == actor.id;
    }
  }

  /** `r` is the result of running the query `f` over the rows `m`: each
      kept row exactly once, nothing else, newest first. */
  ghost predicate Lists(r: seq<Expense>, m: map<int, Expense>, f: Filter) {
    && (forall i :: 0 <= i < |r| ==> r[i].id in m && m[r[i].id] == r[i] && Matches(f, r[i]))
    && (forall k :: k in m && Matches(f, m[k]) ==> m[k] in r)
    && DistinctIds(r)
    && |r| == |Selected(m, f)|
    && NewestFirst(r)
  }
}
