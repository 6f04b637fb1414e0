/**
 * The import reader: the edited export rows are validated and grouped into
 * an update plan, content URL -> data source id -> connection updates. The
 * CSV parsing is not modelled; a row arrives as the values of the columns
 * the import reads.
 */
module CredentialImport {
  import opened Wrappers
  import opened OrderedDict
  import DirectoryExport

  datatype ImportRow = ImportRow(
    siteId: string, siteName: string, siteContentUrl: string,
    datasourceId: string, datasourceName: string, connectionId: string,
    updatedUsername: string, updatedPassword: string)

  /** The two `ValueError`s of the import. */
  datatype ImportError = MissingUsername | MissingPassword

  /** The message of each error names the missing column value, and the two messages differ. */
  function ErrorText(e: ImportError): (text: string)
    ensures |text| > 16 && text[..8] == "Updated "
    ensures text[8..16] == "username" <==> e.MissingUsername?
    ensures text[8..16] == "password" <==> e.MissingPassword?
  {
    var field := if e.MissingUsername? then "username" else "password";
    var text := "Updated " + field + " must be provided, even if you are not changing the value.";
    assert text[8..16] == field && field[0] == (if e.MissingUsername? then 'u' else 'p');
    text
  }

  datatype ConnectionUpdate = ConnectionUpdate(connectionId: string, username: string, password: string)
  datatype DatasourcePlan = DatasourcePlan(name: string, connections: seq<ConnectionUpdate>)
  datatype SitePlan = SitePlan(siteId: string, siteName: string, datasources: Dict<DatasourcePlan>)

  /** Keyed by site content URL. */
  type UpdatePlan = Dict<SitePlan>

  /** One connection update together with the keys it is filed under. */
  datatype PlannedUpdate = PlannedUpdate(siteContentUrl: string, datasourceId: string, update: ConnectionUpdate)

  /** The username is checked before the password. */
  function CheckRow(row: ImportRow): (r: Option<ImportError>)
    ensures r == Some(MissingUsername) <==> |row.updatedUsername| == 0
    ensures r == Some(MissingPassword) <==> |row.updatedUsername| != 0 && |row.updatedPassword| == 0
    ensures r == None <==> |row.updatedUsername| != 0 && |row.updatedPassword| != 0
  {
    if |row.updatedUsername| == 0 then Some(MissingUsername)
    else if |row.updatedPassword| == 0 then Some(MissingPassword)
    else None
  }

  function UpdateOf(row: ImportRow): ConnectionUpdate
  {
    ConnectionUpdate(row.connectionId, row.updatedUsername, row.updatedPassword)
  }

  function PlannedOf(row: ImportRow): PlannedUpdate
  {
    PlannedUpdate(row.siteContentUrl, row.datasourceId, UpdateOf(row))
  }

  /**
   * Merge one row: the site entry and the data-source entry are created by
   * the first row that needs them, and the connection update is appended.
   */
  function AddRow(plan: UpdatePlan, row: ImportRow): UpdatePlan
  {
    var site := if row.siteContentUrl in plan.entries then plan.entries[row.siteContentUrl]
                else SitePlan(row.siteId, row.siteName, Empty());
    Put(plan, row.siteContentUrl, MergeIntoSite(site, row))
  }

  /** The part of AddRow below the site level. */
  function MergeIntoSite(site: SitePlan, row: ImportRow): SitePlan
  {
    var source := if row.datasourceId in site.datasources.entries then site.datasources.entries[row.datasourceId]
                  else DatasourcePlan(row.datasourceName, []);
    var source' := source.(connections := source.connections + [UpdateOf(row)]);
    site.(datasources := Put(site.datasources, row.datasourceId, source'))
  }

  /** The plan the rows give, or the error of the first row that fails validation. */
  function Plan(rows: seq<ImportRow>): Result<UpdatePlan, ImportError>
  {
    if rows == [] then Success(Empty())
    else
      match Plan(rows[..|rows| - 1])
      case Failure(e) => Failure(e)
      case Success(plan) =>
        var row := rows[|rows| - 1];
        match CheckRow(row)
        case Some(e) => Failure(e)
        case None => Success(AddRow(plan, row))
  }

  /** A failure in a prefix is the failure of the whole import. */
  lemma {:induction false} PlanFailureStays(rows: seq<ImportRow>, i: nat)
    requires i <= |rows| && Plan(rows[..i]).Failure?
    ensures Plan(rows) == Plan(rows[..i])
  {
    if i < |rows| {
      var pre := rows[..|rows| - 1];
      assert pre[..i] == rows[..i];
      PlanFailureStays(pre, i);
    } else {
      assert rows[..i] == rows;
    }
  }

  /**
   * The first loop of `update_datasources_from_csv`: validate each row and
   * merge it into the nested `updates` dict, raising on the first row with
   * an empty updated username or password.
   */
  method CollectUpdates(rows: seq<ImportRow>) returns (result: Result<UpdatePlan, ImportError>)
    ensures result == Plan(rows)
  {
    var updates: UpdatePlan := Empty();
    var i := 0;
    while i < |rows|
      invariant 0 <= i <= |rows|
      invariant Plan(rows[..i]) == Success(updates)
    {
      var row := rows[i];
      assert rows[..i + 1][..i] == rows[..i];
      if |row.updatedUsername| == 0 {
        PlanFailureStays(rows, i + 1);
        return Failure(MissingUsername);
      }
      if |row.updatedPassword| == 0 {
        PlanFailureStays(rows, i + 1);
        return Failure(MissingPassword);
      }
      ghost var before := updates;
      if row.siteContentUrl !in updates.entries {
        updates := Put(updates, row.siteContentUrl, SitePlan(row.siteId, row.siteName, Empty()));
      }
      var site := updates.entries[row.siteContentUrl];
      var datasources := site.datasources;
      if row.datasourceId !in datasources.entries {
        datasources := Put(datasources, row.datasourceId, DatasourcePlan(row.datasourceName, []));
      }
      var source := datasources.entries[row.datasourceId];
      datasources := Put(datasources, row.datasourceId, source.(connections := source.connections + [UpdateOf(row)]));
      updates := Put(updates, row.siteContentUrl, site.(datasources := datasources));
      // an entry created above and then overwritten is one insertion, as in AddRow
      if row.siteContentUrl !in before.entries {
        PutTwice(before, row.siteContentUrl, SitePlan(row.siteId, row.siteName, Empty()), site.(datasources := datasources));
      }
      if row.datasourceId !in site.datasources.entries {
        PutTwice(site.datasources, row.datasourceId, DatasourcePlan(row.datasourceName, []),
                 source.(connections := source.connections + [UpdateOf(row)]));
      }
      assert updates == AddRow(before, row);
      i := i + 1;
    }
    assert rows[..i] == rows;
    return Success(updates);
  }

  /** The import fails exactly when some row fails validation, and then with the first such row's error. */
  lemma {:induction false} PlanFailsAtFirstInvalidRow(rows: seq<ImportRow>)
    ensures Plan(rows).Failure? <==> exists j :: 0 <= j < |rows| && CheckRow(rows[j]).Some?
    ensures Plan(rows).Failure? ==>
              exists j :: && 0 <= j < |rows| && CheckRow(rows[j]) == Some(Plan(rows).error)
                          && forall i :: 0 <= i < j ==> CheckRow(rows[i]) == None
  {
    if rows != [] {
      var pre := rows[..|rows| - 1];
      PlanFailsAtFirstInvalidRow(pre);
      assert forall j :: 0 <= j < |pre| ==> pre[j] == rows[j];
      if Plan(pre).Failure? {
        var j :| && 0 <= j < |pre| && CheckRow(pre[j]) == Some(Plan(pre).error)
                 && forall i :: 0 <= i < j ==> CheckRow(pre[i]) == None;
        assert CheckRow(rows[j]) == Some(Plan(rows).error);
      } else if CheckRow(rows[|rows| - 1]).Some? {
        assert forall i :: 0 <= i < |rows| - 1 ==> CheckRow(rows[i]) == None;
      } else {
        forall j | 0 <= j < |rows| ensures CheckRow(rows[j]) == None {
          if j < |pre| { assert rows[j] == pre[j]; }
        }
      }
    }
  }

  /** Every connection update of a data source carries both credentials. */
  ghost predicate CredentialsPresent(source: DatasourcePlan)
  {
    forall c :: c in source.connections ==> |c.username| != 0 && |c.password| != 0
  }

  ghost predicate SiteWellFormed(site: SitePlan)
  {
    && Valid(site.datasources)
    && forall d :: d in site.datasources.entries ==> CredentialsPresent(site.datasources.entries[d])
  }

  /** The invariant of the `updates` dict: both levels are proper dicts and no credential is empty. */
  ghost predicate WellFormed(plan: UpdatePlan)
  {
    && Valid(plan)
    && forall s :: s in plan.entries ==> SiteWellFormed(plan.entries[s])
  }

  lemma AddRowWellFormed(plan: UpdatePlan, row: ImportRow)
    requires WellFormed(plan) && CheckRow(row) == None
    ensures WellFormed(AddRow(plan, row))
  {
  }

  /** A successful import yields a well-formed plan. */
  lemma {:induction false} PlanWellFormed(rows: seq<ImportRow>)
    requires Plan(rows).Success?
    ensures WellFormed(Plan(rows).value)
  {
    if rows != [] {
      var pre := rows[..|rows| - 1];
      PlanWellFormed(pre);
      AddRowWellFormed(Plan(pre).value, rows[|rows| - 1]);
    }
  }

  /** The plan has one site entry per distinct content URL of the rows. */
  lemma {:induction false} PlanSites(rows: seq<ImportRow>, url: string)
    requires Plan(rows).Success?
    ensures url in Plan(rows).value.entries <==> exists i :: 0 <= i < |rows| && rows[i].siteContentUrl == url
  {
    if rows != [] {
      var pre := rows[..|rows| - 1];
      PlanSites(pre, url);
      assert forall j :: 0 <= j < |pre| ==> pre[j] == rows[j];
    }
  }

  /** The connection updates filed under one content URL and data source id, or none. */
  function ConnectionsOf(plan: UpdatePlan, url: string, datasourceId: string): seq<ConnectionUpdate>
  {
    if url in plan.entries && datasourceId in plan.entries[url].datasources.entries
    then plan.entries[url].datasources.entries[datasourceId].connections
    else []
  }

  /** The updates of the rows with this content URL and data source id, in row order. */
  function Select(rows: seq<ImportRow>, url: string, datasourceId: string): seq<ConnectionUpdate>
  {
    if rows == [] then []
    else
      var row := rows[|rows| - 1];
      Select(rows[..|rows| - 1], url, datasourceId)
        + (if row.siteContentUrl == url && row.datasourceId == datasourceId then [UpdateOf(row)] else [])
  }

  /**
   * Rows sharing a content URL and a data source id are merged into one
   * data-source entry whose connection list holds their updates in row
   * order; no other entry receives them.
   */
  lemma {:induction false} PlanConnections(rows: seq<ImportRow>, url: string, datasourceId: string)
    requires Plan(rows).Success?
    ensures ConnectionsOf(Plan(rows).value, url, datasourceId) == Select(rows, url, datasourceId)
  {
    if rows != [] {
      PlanConnections(rows[..|rows| - 1], url, datasourceId);
    }
  }

  /** A data-source entry exists under a site exactly when some row names both. */
  lemma {:induction false} PlanDatasources(rows: seq<ImportRow>, url: string, datasourceId: string)
    requires Plan(rows).Success? && url in Plan(rows).value.entries
    ensures datasourceId in Plan(rows).value.entries[url].datasources.entries
            <==> exists i :: 0 <= i < |rows| && rows[i].siteContentUrl == url && rows[i].datasourceId == datasourceId
  {
    var pre := rows[..|rows| - 1];
    var row := rows[|rows| - 1];
    assert forall j :: 0 <= j < |pre| ==> pre[j] == rows[j];
    if url in Plan(pre).value.entries {
      PlanDatasources(pre, url, datasourceId);
    } else {
      PlanSites(pre, url);
    }
  }

  /** Site id and name come from the first row with that content URL; later rows never change them. */
  lemma {:induction false} PlanSiteFromFirstRow(rows: seq<ImportRow>, i: nat)
    requires Plan(rows).Success? && i < |rows|
    requires forall j :: 0 <= j < i ==> rows[j].siteContentUrl != rows[i].siteContentUrl
    ensures rows[i].siteContentUrl in Plan(rows).value.entries
    ensures Plan(rows).value.entries[rows[i].siteContentUrl].siteId == rows[i].siteId
    ensures Plan(rows).value.entries[rows[i].siteContentUrl].siteName == rows[i].siteName
  {
    var pre := rows[..|rows| - 1];
    if i == |rows| - 1 {
      PlanSites(pre, rows[i].siteContentUrl);
    } else {
      assert pre[i] == rows[i];
      PlanSiteFromFirstRow(pre, i);
    }
  }

  /**
   * A data source's name comes from the first row with that content URL
   * and data source id; later rows never change it.
   */
  lemma {:induction false} PlanDatasourceFromFirstRow(rows: seq<ImportRow>, i: nat)
    requires Plan(rows).Success? && i < |rows|
    requires forall j :: 0 <= j < i ==> rows[j].siteContentUrl != rows[i].siteContentUrl
                                        || rows[j].datasourceId != rows[i].datasourceId
    ensures rows[i].siteContentUrl in Plan(rows).value.entries
    ensures rows[i].datasourceId in Plan(rows).value.entries[rows[i].siteContentUrl].datasources.entries
    ensures Plan(rows).value.entries[rows[i].siteContentUrl].datasources.entries[rows[i].datasourceId].name
            == rows[i].datasourceName
  {
    var pre := rows[..|rows| - 1];
    var url := rows[i].siteContentUrl;
    if i == |rows| - 1 {
      if url in Plan(pre).value.entries {
        PlanDatasources(pre, url, rows[i].datasourceId);
      }
    } else {
      assert pre[i] == rows[i];
      PlanDatasourceFromFirstRow(pre, i);
    }
  }

  /** The updates of one data source, filed under their keys. */
  function Tagged(url: string, datasourceId: string, updates: seq<ConnectionUpdate>): (r: seq<PlannedUpdate>)
  {
    seq(|updates|, i requires 0 <= i < |updates| => PlannedUpdate(url, datasourceId, updates[i]))
  }

  function DatasourceUpdates(url: string): (string, DatasourcePlan) -> seq<PlannedUpdate>
  {
    (datasourceId: string, source: DatasourcePlan) => Tagged(url, datasourceId, source.connections)
  }

  function SiteUpdates(url: string, site: SitePlan): seq<PlannedUpdate>
  {
    FlatMap(site.datasources.keys, site.datasources.entries, DatasourceUpdates(url))
  }

  /** Every connection update of the plan, in the order the dispatcher walks it. */
  function Planned(plan: UpdatePlan): seq<PlannedUpdate>
  {
    FlatMap(plan.keys, plan.entries, SiteUpdates)
  }

  /** The update each row asks for, in row order. */
  function RowUpdates(rows: seq<ImportRow>): seq<PlannedUpdate>
  {
    if rows == [] then [] else RowUpdates(rows[..|rows| - 1]) + [PlannedOf(rows[|rows| - 1])]
  }

  /** Merging a row into its site adds the row's update, and nothing else, to the site's updates. */
  lemma MergeIntoSitePlanned(site: SitePlan, row: ImportRow)
    requires Valid(site.datasources)
    ensures multiset(SiteUpdates(row.siteContentUrl, MergeIntoSite(site, row)))
            == multiset(SiteUpdates(row.siteContentUrl, site)) + multiset{PlannedOf(row)}
  {
    var url, d := row.siteContentUrl, row.datasourceId;
    var source := if d in site.datasources.entries then site.datasources.entries[d]
                  else DatasourcePlan(row.datasourceName, []);
    var source' := source.(connections := source.connections + [UpdateOf(row)]);
    assert Tagged(url, d, source'.connections) == Tagged(url, d, source.connections) + [PlannedOf(row)];
    FlatMapPut(site.datasources, d, source', DatasourceUpdates(url), multiset{PlannedOf(row)});
  }

  /** Merging a row adds its update, and nothing else, to the plan's updates. */
  lemma AddRowPlanned(plan: UpdatePlan, row: ImportRow)
    requires Valid(plan)
    requires row.siteContentUrl in plan.entries ==> Valid(plan.entries[row.siteContentUrl].datasources)
    ensures multiset(Planned(AddRow(plan, row))) == multiset(Planned(plan)) + multiset{PlannedOf(row)}
  {
    var url := row.siteContentUrl;
    var site := if url in plan.entries then plan.entries[url] else SitePlan(row.siteId, row.siteName, Empty());
    MergeIntoSitePlanned(site, row);
    FlatMapPut(plan, url, MergeIntoSite(site, row), SiteUpdates, multiset{PlannedOf(row)});
  }

  /**
   * After a successful import the plan holds exactly the rows' updates:
   * one per row, none lost, none duplicated.
   */
  lemma {:induction false} PlanMatchesRows(rows: seq<ImportRow>)
    requires Plan(rows).Success?
    ensures multiset(Planned(Plan(rows).value)) == multiset(RowUpdates(rows))
    ensures |Planned(Plan(rows).value)| == |rows|
  {
    if rows != [] {
      var pre, row := rows[..|rows| - 1], rows[|rows| - 1];
      var plan := Plan(pre).value;
      assert Plan(rows).value == AddRow(plan, row);
      PlanMatchesRows(pre);
      PlanWellFormed(pre);
      assert row.siteContentUrl in plan.entries ==> SiteWellFormed(plan.entries[row.siteContentUrl]);
      AddRowPlanned(plan, row);
    }
    assert |multiset(Planned(Plan(rows).value))| == |multiset(RowUpdates(rows))|;
  }


  /** A cell of the export file: `None` is written as an empty cell. */
  function Cell(v: Option<string>): string
  {
    if v.Some? then v.value else ""
  }

  /** The import row an export record reads back as. */
  function ReadBack(rec: DirectoryExport.ConnectionRecord): ImportRow
  {
    ImportRow(rec.siteId, rec.siteName, rec.siteContentUrl, rec.datasourceId, rec.datasourceName,
              rec.connectionId, Cell(rec.updatedUsername), Cell(rec.updatedPassword))
  }

  function ReadBackAll(records: seq<DirectoryExport.ConnectionRecord>): seq<ImportRow>
  {
    seq(|records|, i requires 0 <= i < |records| => ReadBack(records[i]))
  }

  /** Re-importing an export that nobody filled in fails on its first row, before any update. */
  lemma UnfilledExportRejected(records: seq<DirectoryExport.ConnectionRecord>)
    requires |records| > 0 && records[0].updatedUsername == None
    ensures Plan(ReadBackAll(records)) == Failure(MissingUsername)
  {
    var rows := ReadBackAll(records);
    PlanFailsAtFirstInvalidRow(rows);
    assert CheckRow(rows[0]).Some?;
  }

  /**
   * Re-importing an export whose credential columns are all filled in
   * plans exactly one update per exported connection.
   */
  lemma FilledExportRoundTrip(records: seq<DirectoryExport.ConnectionRecord>)
    requires forall r :: r in records ==>
               && r.updatedUsername.Some? && r.updatedUsername.value != ""
               && r.updatedPassword.Some? && r.updatedPassword.value != ""
    ensures Plan(ReadBackAll(records)).Success?
    ensures |Planned(Plan(ReadBackAll(records)).value)| == |records|
    ensures forall r :: r in records ==>
              PlannedUpdate(r.siteContentUrl, r.datasourceId,
                            ConnectionUpdate(r.connectionId, r.updatedUsername.value, r.updatedPassword.value))
              in Planned(Plan(ReadBackAll(records)).value)
  {
    var rows := ReadBackAll(records);
    PlanFailsAtFirstInvalidRow(rows);
    PlanMatchesRows(rows);
    forall r | r in records
      ensures PlannedUpdate(r.siteContentUrl, r.datasourceId,
                            ConnectionUpdate(r.connectionId, r.updatedUsername.value, r.updatedPassword.value))
              in Planned(Plan(rows).value)
    {
      var i :| 0 <= i < |records| && records[i] == r;
      RowUpdatesAt(rows, i);
      assert PlannedOf(rows[i]) in multiset(RowUpdates(rows));
    }
  }

  lemma {:induction false} RowUpdatesAt(rows: seq<ImportRow>, i: nat)
    requires i < |rows|
    ensures |RowUpdates(rows)| == |rows| && RowUpdates(rows)[i] == PlannedOf(rows[i])
  {
    if i < |rows| - 1 {
      RowUpdatesAt(rows[..|rows| - 1], i);
    } else if |rows| > 1 {
      RowUpdatesAt(rows[..|rows| - 1], 0);
    }
  }

  /** Every update a site contributes is filed under that site's content URL. */
  lemma SiteUpdatesUrl(url: string, site: SitePlan)
    ensures forall x :: x in SiteUpdates(url, site) ==> x.siteContentUrl == url
  {
    forall x | x in SiteUpdates(url, site) ensures x.siteContentUrl == url {
      FlatMapMember(site.datasources.keys, site.datasources.entries, DatasourceUpdates(url), x);
    }
  }
}
