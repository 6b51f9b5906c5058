/** The owner's views of their leads: the dashboard and the CSV export. Both need a
    logged-in session and otherwise redirect to the log-in page. */
module Views {
  import opened Base
  import opened LeadStore

  /** One CSV cell before quoting: a number, a text, or an absent value (written empty). */
  datatype Field = IntField(n: int) | TextField(s: string) | NullField

  const Header: seq<Field> := [TextField("ID"), TextField("Phone"), TextField("Name"),
                               TextField("Message"), TextField("Timestamp"), TextField("Handled")]

  /** The row of one lead, in the header's column order. */
  function LeadRow(l: Lead): seq<Field> {
    [IntField(l.id),
     match l.phone case None => NullField case Some(p) => TextField(p),
     TextField(l.name), TextField(l.message), TextField(l.timestamp), IntField(l.handled)]
  }

  /** The writer loop of `export`: the header row, then one row per lead in order. */
  method WriteRows(leads: seq<Lead>) returns (rows: seq<seq<Field>>)
    ensures |rows| == |leads| + 1
    ensures rows[0] == Header
    ensures forall k :: 0 <= k < |leads| ==> rows[k + 1] == LeadRow(leads[k])
  {
    rows := [Header];
    for i := 0 to |leads|
      invariant |rows| == i + 1
      invariant rows[0] == Header
      invariant forall k :: 0 <= k < i ==> rows[k + 1] == LeadRow(leads[k])
    {
      rows := rows + [LeadRow(leads[i])];
    }
  }

  /** Every data row (after the header) is the row of a lead of user `u`. */
  ghost predicate RowsOwnedBy(rows: seq<seq<Field>>, leads: seq<Lead>, u: nat) {
    forall k :: 1 <= k < |rows| ==> IsRowOf(rows[k], leads, u)
  }

  ghost predicate IsRowOf(row: seq<Field>, leads: seq<Lead>, u: nat) {
    exists l :: l in leads && l.userId == u && row == LeadRow(l)
  }

  datatype ExportResponse = ExportRedirect | CsvFile(filename: string, rows: seq<seq<Field>>)

  /** `export`: for the session's user, the file `leads.csv` holding the header and one row
      per lead of that user, newest first; without a session, a redirect. No row comes
      from another user's lead. */
  method Export(store: Store, session: Option<nat>) returns (resp: ExportResponse)
    requires store.Valid()
    ensures session.None? <==> resp.ExportRedirect?
    ensures resp.CsvFile? ==>
              var leads := NewestFirst(store.leads, session.value);
              && resp.filename == "leads.csv"
              && |resp.rows| == |leads| + 1
              && resp.rows[0] == Header
              && (forall k :: 0 <= k < |leads| ==> resp.rows[k + 1] == LeadRow(leads[k]))
    ensures resp.CsvFile? ==> RowsOwnedBy(resp.rows, store.leads, session.value)
  {
    if session.None? {
      return ExportRedirect;
    }
    var leads := store.GetLeads(session.value);
    var rows := WriteRows(leads);
    resp := CsvFile("leads.csv", rows);
    forall k | 1 <= k < |rows|
      ensures IsRowOf(rows[k], store.leads, session.value)
    {
      var l := leads[k - 1];
      assert l in leads;
      assert l in store.leads && l.userId == session.value && rows[k] == LeadRow(l);
    }
    assert RowsOwnedBy(rows, store.leads, session.value);
  }

  datatype DashboardResponse = DashboardRedirect | Page(leads: seq<Lead>, total: nat)

  /** `dashboard`: the session user's leads, newest first, with their count. */
  method Dashboard(store: Store, session: Option<nat>) returns (resp: DashboardResponse)
    requires store.Valid()
    ensures session.None? <==> resp.DashboardRedirect?
    ensures resp.Page? ==>
              && resp.total == |resp.leads|
              && (forall l :: l in resp.leads <==> l in store.leads && l.userId == session.value)
              && LeadIdsDescending(resp.leads)
  {
    if session.None? {
      return DashboardRedirect;
    }
    var leads := store.GetLeads(session.value);
    resp := Page(leads, |leads|);
  }
}
