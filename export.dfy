/**
 * The directory walker and the export rows: the site table built from the
 * site listing, and the flattening of site x data source x connection into
 * one record per connection. The listing calls are function parameters
 * standing for the server's replies.
 */
module DirectoryExport {
  import opened Wrappers
  import opened OrderedDict

  /** An entry of the site listing, `{"id", "name", "contentUrl"}`. */
  datatype Site = Site(id: string, name: string, contentUrl: string)

  /** The value `get_sites` keeps per site id. */
  datatype SiteInfo = SiteInfo(name: string, contentUrl: string)

  datatype DataSource = DataSource(id: string, name: string, contentUrl: string)

  datatype Connection = Connection(id: string, connectionType: string, serverAddress: string,
                                   serverPort: string, userName: string)

  /**
   * The object under `datasources` or `connections` in a listing reply. The
   * server leaves the list key out when there is nothing to list.
   */
  type Listing<T> = map<string, seq<T>>

  const DatasourceKey := "datasource"
  const ConnectionKey := "connection"

  /** One export row; the two credential fields start out as `None`. */
  datatype ConnectionRecord = ConnectionRecord(
    siteId: string, siteName: string, siteContentUrl: string,
    datasourceId: string, datasourceName: string, datasourceContentUrl: string,
    connectionId: string, connectionType: string, connectionServerAddress: string,
    connectionServerPort: string, connectionUsername: string,
    updatedUsername: Option<string>, updatedPassword: Option<string>)

  /** The header of the export file, in column order. */
  const ExportColumns: seq<string> := [
    "site_id", "site_name", "site_content_url",
    "datasource_id", "datasource_name", "datasource_content_url",
    "connection_id", "connection_type", "connection_server_address",
    "connection_server_port", "connection_username",
    "updated_username", "updated_password"]

  /** The listed items, an absent list key counting as none. */
  function Items<T>(listing: Listing<T>, key: string): seq<T>
  {
    if key in listing then listing[key] else []
  }

  /** `get_sites`: the site listing as a dict keyed by site id. */
  function SitesById(sites: seq<Site>): (table: Dict<SiteInfo>)
    ensures Valid(table)
  {
    if sites == [] then Empty()
    else
      var s := sites[|sites| - 1];
      Put(SitesById(sites[..|sites| - 1]), s.id, SiteInfo(s.name, s.contentUrl))
  }

  /** The table has one key per distinct site id of the listing. */
  lemma {:induction false} SitesByIdKeys(sites: seq<Site>, id: string)
    ensures id in SitesById(sites).entries <==> exists i :: 0 <= i < |sites| && sites[i].id == id
  {
    if sites != [] {
      var pre := sites[..|sites| - 1];
      SitesByIdKeys(pre, id);
      if exists i :: 0 <= i < |pre| && pre[i].id == id {
        var i :| 0 <= i < |pre| && pre[i].id == id;
        assert sites[i].id == id;
      }
      if exists i :: 0 <= i < |sites| && sites[i].id == id {
        var i :| 0 <= i < |sites| && sites[i].id == id;
        if i < |pre| { assert pre[i].id == id; }
      }
    }
  }

  /** Each id keeps the name and content URL of its last entry in the listing. */
  lemma {:induction false} SitesByIdLastEntry(sites: seq<Site>, j: nat)
    requires j < |sites|
    requires forall i :: j < i < |sites| ==> sites[i].id != sites[j].id
    ensures sites[j].id in SitesById(sites).entries
    ensures SitesById(sites).entries[sites[j].id] == SiteInfo(sites[j].name, sites[j].contentUrl)
  {
    var pre := sites[..|sites| - 1];
    if j < |sites| - 1 {
      assert pre[j] == sites[j];
      SitesByIdLastEntry(pre, j);
    }
  }

  /** With distinct ids, the table is iterated in listing order. */
  lemma {:induction false} SitesByIdOrder(sites: seq<Site>)
    requires forall i, j :: 0 <= i < j < |sites| ==> sites[i].id != sites[j].id
    ensures |SitesById(sites).keys| == |sites|
    ensures forall i :: 0 <= i < |sites| ==> SitesById(sites).keys[i] == sites[i].id
  {
    if sites != [] {
      var pre := sites[..|sites| - 1];
      SitesByIdOrder(pre);
      SitesByIdKeys(pre, sites[|sites| - 1].id);
    }
  }

  /**
   * With repeated ids, the table is iterated in order of first occurrence:
   * wherever a later key occurs in the listing, every earlier key has
   * already occurred before it.
   */
  lemma {:induction false} SitesByIdFirstOccurrence(sites: seq<Site>, i: nat, j: nat, p: nat)
    requires i < j < |SitesById(sites).keys|
    requires p < |sites| && sites[p].id == SitesById(sites).keys[j]
    ensures exists q :: 0 <= q < p && sites[q].id == SitesById(sites).keys[i]
  {
    var pre := sites[..|sites| - 1];
    if sites[|sites| - 1].id !in SitesById(pre).entries && j == |SitesById(pre).keys| {
      NewKeyFirstOccurrence(sites, i, j, p);
    } else {
      var p' := OldKeyOccurrence(sites, i, j, p);
      SitesByIdFirstOccurrence(pre, i, j, p');
      var q :| 0 <= q < p' && pre[q].id == SitesById(pre).keys[i];
      assert sites[q].id == SitesById(sites).keys[i];
    }
  }

  /** The key the last entry adds occurs only there, after every older key. */
  lemma NewKeyFirstOccurrence(sites: seq<Site>, i: nat, j: nat, p: nat)
    requires sites != [] && sites[|sites| - 1].id !in SitesById(sites[..|sites| - 1]).entries
    requires i < j == |SitesById(sites[..|sites| - 1]).keys|
    requires p < |sites| && sites[p].id == SitesById(sites).keys[j]
    ensures exists q :: 0 <= q < p && sites[q].id == SitesById(sites).keys[i]
  {
    var pre := sites[..|sites| - 1];
    var preKeys := SitesById(pre).keys;
    assert exists k :: 0 <= k < |pre| && pre[k].id == preKeys[i] by {
      assert preKeys[i] in preKeys;
      SitesByIdKeys(pre, preKeys[i]);
    }
    var q :| 0 <= q < |pre| && pre[q].id == preKeys[i];
    assert p == |pre| by {
      SitesByIdKeys(pre, sites[|sites| - 1].id);
    }
    assert sites[q].id == SitesById(sites).keys[i];
  }

  /**
   * A key the table already had before the last entry keeps its place and
   * occurs in the shorter listing, no later than at `p`.
   */
  lemma OldKeyOccurrence(sites: seq<Site>, i: nat, j: nat, p: nat) returns (p': nat)
    requires sites != []
    requires sites[|sites| - 1].id in SitesById(sites[..|sites| - 1]).entries
             || j < |SitesById(sites[..|sites| - 1]).keys|
    requires i < j < |SitesById(sites).keys|
    requires p < |sites| && sites[p].id == SitesById(sites).keys[j]
    ensures j < |SitesById(sites[..|sites| - 1]).keys|
    ensures SitesById(sites).keys[i] == SitesById(sites[..|sites| - 1]).keys[i]
    ensures p' <= p && p' < |sites| - 1
    ensures sites[..|sites| - 1][p'].id == SitesById(sites[..|sites| - 1]).keys[j]
  {
    var pre := sites[..|sites| - 1];
    var preKeys := SitesById(pre).keys;
    if p < |pre| {
      p' := p;
    } else {
      assert exists k :: 0 <= k < |pre| && pre[k].id == preKeys[j] by {
        assert preKeys[j] in preKeys;
        SitesByIdKeys(pre, preKeys[j]);
      }
      p' :| 0 <= p' < |pre| && pre[p'].id == preKeys[j];
    }
  }

  function MakeRecord(siteId: string, site: SiteInfo, source: DataSource, c: Connection): ConnectionRecord
  {
    ConnectionRecord(siteId, site.name, site.contentUrl,
                     source.id, source.name, source.contentUrl,
                     c.id, c.connectionType, c.serverAddress, c.serverPort, c.userName,
                     None, None)
  }

  /** The records of one data source: one per listed connection. */
  function ConnectionRecords(siteId: string, site: SiteInfo, source: DataSource, conns: seq<Connection>): seq<ConnectionRecord>
  {
    if conns == [] then []
    else ConnectionRecords(siteId, site, source, conns[..|conns| - 1]) + [MakeRecord(siteId, site, source, conns[|conns| - 1])]
  }

  /** The records of one site, data source after data source. */
  function SourceRecords(siteId: string, site: SiteInfo, sources: seq<DataSource>,
                         connectionsOf: (string, string) -> Listing<Connection>): seq<ConnectionRecord>
  {
    if sources == [] then []
    else
      var source := sources[|sources| - 1];
      SourceRecords(siteId, site, sources[..|sources| - 1], connectionsOf)
        + ConnectionRecords(siteId, site, source, Items(connectionsOf(siteId, source.id), ConnectionKey))
  }

  /** The records of the listed sites, site after site. */
  function SiteRecords(ids: seq<string>, table: map<string, SiteInfo>,
                       datasourcesOf: string -> Listing<DataSource>,
                       connectionsOf: (string, string) -> Listing<Connection>): seq<ConnectionRecord>
  {
    if ids == [] then []
    else
      var id := ids[|ids| - 1];
      SiteRecords(ids[..|ids| - 1], table, datasourcesOf, connectionsOf)
        + (if id in table then SourceRecords(id, table[id], Items(datasourcesOf(id), DatasourceKey), connectionsOf) else [])
  }

  /** Everything one export run collects before writing the file. */
  function Export(sites: seq<Site>, datasourcesOf: string -> Listing<DataSource>,
                  connectionsOf: (string, string) -> Listing<Connection>): seq<ConnectionRecord>
  {
    var table := SitesById(sites);
    SiteRecords(table.keys, table.entries, datasourcesOf, connectionsOf)
  }

  /** Every record of a data source is built from one of its listed connections, and each listed connection gives one. */
  lemma {:induction false} ConnectionRecordsMember(siteId: string, site: SiteInfo, source: DataSource,
                                                   conns: seq<Connection>, rec: ConnectionRecord)
    ensures rec in ConnectionRecords(siteId, site, source, conns)
            <==> exists c :: c in conns && rec == MakeRecord(siteId, site, source, c)
  {
    if conns != [] {
      var pre := conns[..|conns| - 1];
      ConnectionRecordsMember(siteId, site, source, pre, rec);
      assert forall c :: c in conns <==> c in pre || c == conns[|conns| - 1];
    }
  }

  lemma {:induction false} SourceRecordsMember(siteId: string, site: SiteInfo, sources: seq<DataSource>,
                                               connectionsOf: (string, string) -> Listing<Connection>, rec: ConnectionRecord)
    ensures rec in SourceRecords(siteId, site, sources, connectionsOf)
            <==> exists s, c :: s in sources && c in Items(connectionsOf(siteId, s.id), ConnectionKey)
                                && rec == MakeRecord(siteId, site, s, c)
  {
    if sources != [] {
      var pre := sources[..|sources| - 1];
      var last := sources[|sources| - 1];
      SourceRecordsMember(siteId, site, pre, connectionsOf, rec);
      ConnectionRecordsMember(siteId, site, last, Items(connectionsOf(siteId, last.id), ConnectionKey), rec);
      assert forall s :: s in sources <==> s in pre || s == last;
    }
  }

  lemma {:induction false} SiteRecordsMember(ids: seq<string>, table: map<string, SiteInfo>,
                                             datasourcesOf: string -> Listing<DataSource>,
                                             connectionsOf: (string, string) -> Listing<Connection>, rec: ConnectionRecord)
    ensures rec in SiteRecords(ids, table, datasourcesOf, connectionsOf)
            <==> exists id :: id in ids && id in table
                              && rec in SourceRecords(id, table[id], Items(datasourcesOf(id), DatasourceKey), connectionsOf)
  {
    if ids != [] {
      var pre := ids[..|ids| - 1];
      SiteRecordsMember(pre, table, datasourcesOf, connectionsOf, rec);
      assert forall id :: id in ids <==> id in pre || id == ids[|ids| - 1];
    }
  }

  /**
   * A record is exported exactly when some site of the table lists a data
   * source that lists a connection, and it then carries that site's,
   * data source's and connection's fields, with no updated credentials.
   */
  lemma ExportMember(sites: seq<Site>, datasourcesOf: string -> Listing<DataSource>,
                     connectionsOf: (string, string) -> Listing<Connection>, rec: ConnectionRecord)
    ensures rec in Export(sites, datasourcesOf, connectionsOf)
            <==> exists id, s, c :: && id in SitesById(sites).entries
                                   && s in Items(datasourcesOf(id), DatasourceKey)
                                   && c in Items(connectionsOf(id, s.id), ConnectionKey)
                                   && rec == MakeRecord(id, SitesById(sites).entries[id], s, c)
    ensures rec in Export(sites, datasourcesOf, connectionsOf)
            ==> rec.updatedUsername == None && rec.updatedPassword == None
                && exists i :: 0 <= i < |sites| && sites[i].id == rec.siteId
  {
    var table := SitesById(sites);
    SiteRecordsMember(table.keys, table.entries, datasourcesOf, connectionsOf, rec);
    if rec in Export(sites, datasourcesOf, connectionsOf) {
      var id :| id in table.keys && id in table.entries
                && rec in SourceRecords(id, table.entries[id], Items(datasourcesOf(id), DatasourceKey), connectionsOf);
      SourceRecordsMember(id, table.entries[id], Items(datasourcesOf(id), DatasourceKey), connectionsOf, rec);
      SitesByIdKeys(sites, id);
    }
    if exists id, s, c :: && id in table.entries
                          && s in Items(datasourcesOf(id), DatasourceKey)
                          && c in Items(connectionsOf(id, s.id), ConnectionKey)
                          && rec == MakeRecord(id, table.entries[id], s, c) {
      var id, s, c :| && id in table.entries
                      && s in Items(datasourcesOf(id), DatasourceKey)
                      && c in Items(connectionsOf(id, s.id), ConnectionKey)
                      && rec == MakeRecord(id, table.entries[id], s, c);
      SourceRecordsMember(id, table.entries[id], Items(datasourcesOf(id), DatasourceKey), connectionsOf, rec);
    }
  }

  /** The records of one site, in order. */
  function OfSite(records: seq<ConnectionRecord>, siteId: string): seq<ConnectionRecord>
  {
    if records == [] then []
    else OfSite(records[..|records| - 1], siteId)
         + (if records[|records| - 1].siteId == siteId then [records[|records| - 1]] else [])
  }

  lemma {:induction false} OfSiteConcat(a: seq<ConnectionRecord>, b: seq<ConnectionRecord>, siteId: string)
    ensures OfSite(a + b, siteId) == OfSite(a, siteId) + OfSite(b, siteId)
  {
    if b != [] {
      assert (a + b)[..|a + b| - 1] == a + b[..|b| - 1];
      OfSiteConcat(a, b[..|b| - 1], siteId);
    } else {
      assert a + b == a;
    }
  }

  lemma {:induction false} OfSiteAll(records: seq<ConnectionRecord>, siteId: string)
    ensures (forall r :: r in records ==> r.siteId == siteId) ==> OfSite(records, siteId) == records
    ensures (forall r :: r in records ==> r.siteId != siteId) ==> OfSite(records, siteId) == []
  {
    if records != [] {
      var pre := records[..|records| - 1];
      assert forall r :: r in pre ==> r in records;
      OfSiteAll(pre, siteId);
    }
  }

  lemma SourceRecordsSite(siteId: string, site: SiteInfo, sources: seq<DataSource>,
                          connectionsOf: (string, string) -> Listing<Connection>)
    ensures forall r :: r in SourceRecords(siteId, site, sources, connectionsOf) ==> r.siteId == siteId
  {
    forall r | r in SourceRecords(siteId, site, sources, connectionsOf) ensures r.siteId == siteId {
      SourceRecordsMember(siteId, site, sources, connectionsOf, r);
    }
  }

  lemma {:induction false} SiteRecordsOfSite(ids: seq<string>, table: map<string, SiteInfo>,
                                             datasourcesOf: string -> Listing<DataSource>,
                                             connectionsOf: (string, string) -> Listing<Connection>, siteId: string)
    requires Distinct(ids)
    ensures OfSite(SiteRecords(ids, table, datasourcesOf, connectionsOf), siteId)
            == if siteId in ids && siteId in table
               then SourceRecords(siteId, table[siteId], Items(datasourcesOf(siteId), DatasourceKey), connectionsOf)
               else []
  {
    if ids != [] {
      var pre := ids[..|ids| - 1];
      var id := ids[|ids| - 1];
      assert Distinct(pre) by {
        assert forall j :: 0 <= j < |pre| ==> pre[j] == ids[j];
      }
      var head := SiteRecords(pre, table, datasourcesOf, connectionsOf);
      var tail := if id in table then SourceRecords(id, table[id], Items(datasourcesOf(id), DatasourceKey), connectionsOf) else [];
      assert SiteRecords(ids, table, datasourcesOf, connectionsOf) == head + tail;
      OfSiteConcat(head, tail, siteId);
      SiteRecordsOfSite(pre, table, datasourcesOf, connectionsOf, siteId);
      if id in table {
        SourceRecordsSite(id, table[id], Items(datasourcesOf(id), DatasourceKey), connectionsOf);
      }
      OfSiteAll(tail, siteId);
      if id == siteId {
        assert siteId !in pre by {
          assert forall j :: 0 <= j < |pre| ==> pre[j] == ids[j];
        }
        assert OfSite(head, siteId) == [];
      } else {
        assert siteId in ids <==> siteId in pre;
        assert OfSite(tail, siteId) == [];
      }
    }
  }

  /**
   * The export holds, for each site of the table, exactly the records of
   * its listed data sources' listed connections, in listing order; a site
   * whose data-source reply has no list key contributes nothing.
   */
  lemma ExportOfSite(sites: seq<Site>, datasourcesOf: string -> Listing<DataSource>,
                     connectionsOf: (string, string) -> Listing<Connection>, siteId: string)
    ensures OfSite(Export(sites, datasourcesOf, connectionsOf), siteId)
            == if siteId in SitesById(sites).entries
               then SourceRecords(siteId, SitesById(sites).entries[siteId], Items(datasourcesOf(siteId), DatasourceKey), connectionsOf)
               else []
    ensures DatasourceKey !in datasourcesOf(siteId) ==> OfSite(Export(sites, datasourcesOf, connectionsOf), siteId) == []
  {
    var table := SitesById(sites);
    SiteRecordsOfSite(table.keys, table.entries, datasourcesOf, connectionsOf, siteId);
  }

  /**
   * `build_datasources_csv` up to the file writing: for every site of the
   * table, every listed data source, every listed connection, append one
   * record. The two inner loops are the methods below.
   */
  method BuildRecords(siteList: seq<Site>, datasourcesOf: string -> Listing<DataSource>,
                      connectionsOf: (string, string) -> Listing<Connection>)
    returns (records: seq<ConnectionRecord>)
    ensures records == Export(siteList, datasourcesOf, connectionsOf)
  {
    var sites := SitesById(siteList);
    records := [];
    var i := 0;
    while i < |sites.keys|
      invariant 0 <= i <= |sites.keys|
      invariant records == SiteRecords(sites.keys[..i], sites.entries, datasourcesOf, connectionsOf)
    {
      var siteId := sites.keys[i];
      assert siteId in sites.keys;
      var siteData := sites.entries[siteId];
      var reply := datasourcesOf(siteId);
      if DatasourceKey in reply {
        var siteRecords := CollectSource(siteId, siteData, reply[DatasourceKey], connectionsOf);
        records := records + siteRecords;
      }
      assert sites.keys[..i + 1][..i] == sites.keys[..i];
      i := i + 1;
    }
    assert sites.keys[..i] == sites.keys;
  }

  /** The middle loop: the listed data sources of one site. */
  method CollectSource(siteId: string, siteData: SiteInfo, sources: seq<DataSource>,
                       connectionsOf: (string, string) -> Listing<Connection>)
    returns (records: seq<ConnectionRecord>)
    ensures records == SourceRecords(siteId, siteData, sources, connectionsOf)
  {
    records := [];
    var j := 0;
    while j < |sources|
      invariant 0 <= j <= |sources|
      invariant records == SourceRecords(siteId, siteData, sources[..j], connectionsOf)
    {
      var source := sources[j];
      var reply := connectionsOf(siteId, source.id);
      if ConnectionKey in reply {
        var sourceRecords := CollectConnections(siteId, siteData, source, reply[ConnectionKey]);
        records := records + sourceRecords;
      }
      assert sources[..j + 1][..j] == sources[..j];
      j := j + 1;
    }
    assert sources[..j] == sources;
  }

  /** The innermost loop: one record per listed connection of one data source. */
  method CollectConnections(siteId: string, siteData: SiteInfo, source: DataSource, connections: seq<Connection>)
    returns (records: seq<ConnectionRecord>)
    ensures records == ConnectionRecords(siteId, siteData, source, connections)
  {
    records := [];
    var k := 0;
    while k < |connections|
      invariant 0 <= k <= |connections|
      invariant records == ConnectionRecords(siteId, siteData, source, connections[..k])
    {
      records := records + [MakeRecord(siteId, siteData, source, connections[k])];
      assert connections[..k + 1][..k] == connections[..k];
      k := k + 1;
    }
    assert connections[..k] == connections;
  }
}
