# Batch credential restore for Tableau Server, modelled in Dafny

The script `restore_credentials.py` moves the embedded credentials of every
data-source connection on a Tableau Server through two commands:

- **export**: list all sites, then each site's data sources, then each data
  source's connections. The result is one record per connection, with two
  empty columns for the new username and password.
- **import**: read the edited records back and validate every row. The rows
  are grouped by site content URL, then by data source id. Then the script
  signs in to each site and sends one credential update per connection.

This project models the in-memory logic of both commands. HTTP replies are
function parameters that stand for the server, and CSV rows are values.

Modules, in dependency order:

- `Wrappers` (`wrappers.dfy`): `Option` and `Result`.
- `OrderedDict` (`ordered_dict.dfy`): a Python `dict` as the script relies on
  it. It is a map plus the order in which keys were first inserted.
  Assigning to an existing key keeps that key's place. `FlatMap` is what
  nested `for k, v in d.items()` loops visit.
- `Session` (`session.dfy`): the request headers (`get_request_headers`) and
  the sign-in body built in `get_api_token`.
- `DirectoryExport` (`export.dfy`): the site table (`get_sites`) and the
  three nested loops of `build_datasources_csv`. They are proved against the
  function `Export`.
- `CredentialImport` (`import.dfy`): the validation and grouping loop of
  `update_datasources_from_csv`. It is proved against the function `Plan`,
  with lemmas on validation order, merging, first-row-wins, and "one update
  per row".
- `UpdateDispatch` (`dispatch.dfy`): the dispatch loop, the password
  redaction, the choice of message, and the whole import command.

## Model

| member | source | states |
|---|---|---|
| `Session.RequestHeaders` | restore_credentials.py:40-58 | `Content-Type` and `Accept` are always `application/json`. `X-Tableau-Auth` is present exactly when a token is given, and then equals that token. There are no other headers. With a token they are exactly `AuthorizedHeaders(token)`. |
| `Session.SignInPayload` | restore_credentials.py:101-111 | `name` and `password` are copied unchanged. `site.contentUrl` is `""` when no content URL is given, and the given value otherwise. |
| `Session.SignInPayloadToken` | restore_credentials.py:101-111 | The token of a sign-in with the body `SignInPayload` built for a content URL is that site's `SiteToken`. |
| `DirectoryExport.SitesById` | restore_credentials.py:134-139 | The site table is a proper dict: every key is listed once in the iteration order. |
| `DirectoryExport.SitesByIdKeys` | restore_credentials.py:134-139 | The table has a key exactly for the ids that occur in the site listing. |
| `DirectoryExport.SitesByIdLastEntry` | restore_credentials.py:134-139 | Each id maps to the `name` and `contentUrl` of its last entry in the listing, as the dict comprehension overwrites earlier duplicates. |
| `DirectoryExport.SitesByIdOrder` | restore_credentials.py:134-139 | When the listing's ids are distinct, the table iterates the sites in listing order. |
| `DirectoryExport.SitesByIdFirstOccurrence` | restore_credentials.py:134-139 | When ids repeat, the table still iterates its keys in order of first occurrence: wherever a later key occurs in the listing, every earlier key has occurred before that point. |
| `DirectoryExport.BuildRecords` | restore_credentials.py:159-188 | The records collected by the three nested loops are exactly `Export` of the site listing and the listing replies. |
| `DirectoryExport.CollectSource` | restore_credentials.py:165-187 | The middle loop collects, data source by data source, the records of the listed connections. A reply without the `connection` key adds nothing. |
| `DirectoryExport.CollectConnections` | restore_credentials.py:170-187 | The inner loop appends one record per listed connection, in listing order. |
| `DirectoryExport.ExportMember` | restore_credentials.py:160-187 | A record is exported exactly when some site of the table lists a data source that lists a connection. That record copies the site, data source and connection fields. Its updated username and password are `None`. Its site id occurs in the site listing. |
| `DirectoryExport.ExportOfSite` | restore_credentials.py:160-187 | The records of one site are exactly one per listed connection of each listed data source of that site, in listing order. A site whose reply lacks the `datasource` key contributes no record and no error. |
| `CredentialImport.ErrorText` | restore_credentials.py:237-239 | The text of each `ValueError` begins `Updated ` followed by the name of the missing value, `username` or `password`, so the two messages differ. |
| `CredentialImport.CheckRow` | restore_credentials.py:236-239 | A row fails with the username error exactly when `updated_username` is empty. It fails with the password error exactly when the username is present and `updated_password` is empty. Otherwise it passes. |
| `CredentialImport.CollectUpdates` | restore_credentials.py:231-255 | The row loop, which inserts into and appends to the nested `updates` dict and raises on the first invalid row, returns exactly `Plan(rows)`. |
| `CredentialImport.PlanFailsAtFirstInvalidRow` | restore_credentials.py:235-239 | The import fails exactly when some row fails validation. The error is then that of the first failing row. |
| `CredentialImport.PlanWellFormed` | restore_credentials.py:235-255 | A successful import yields proper dicts at both levels, and no connection update has an empty username or password. |
| `CredentialImport.PlanSites` | restore_credentials.py:240-245 | The plan has one site entry per distinct `site_content_url` of the rows. |
| `CredentialImport.PlanDatasources` | restore_credentials.py:246-250 | Under a site, a data-source entry exists exactly when some row names both that content URL and that `datasource_id`. |
| `CredentialImport.PlanConnections` | restore_credentials.py:246-255 | The connection list under a content URL and data source id holds the updates of exactly the rows with those two keys, in row order. Rows sharing both keys are merged into one entry. |
| `CredentialImport.PlanSiteFromFirstRow` | restore_credentials.py:240-245 | A site entry's `site_id` and `site_name` come from the first row with that content URL. Later rows never change them. |
| `CredentialImport.PlanDatasourceFromFirstRow` | restore_credentials.py:246-250 | A data-source entry's name comes from the first row with that content URL and data source id. Later rows never change it. |
| `CredentialImport.AddRowPlanned` | restore_credentials.py:240-255 | Merging one row adds exactly that row's update to the plan's updates, as a multiset. |
| `CredentialImport.PlanMatchesRows` | restore_credentials.py:240-255 | After a successful import, the plan's updates are the rows' updates as a multiset. Their number equals the number of rows. |
| `CredentialImport.UnfilledExportRejected` | restore_credentials.py:236-237 | Re-importing an export whose first record was never filled in fails with the username error, since `None` is written as an empty cell. |
| `CredentialImport.FilledExportRoundTrip` | restore_credentials.py:240-255 | Re-importing an export whose credential columns are all filled succeeds. It plans one update per exported record and includes each record's update. |
| `UpdateDispatch.Redact` | restore_credentials.py:276 | The printed password has five characters: the password's first character, `...`, and its last character. |
| `UpdateDispatch.RedactExamples` | restore_credentials.py:276 | `"secret"` prints as `"s...t"` and `"x"` prints as `"x...x"`. |
| `UpdateDispatch.ChooseOutcome` | restore_credentials.py:273-283 | The error message is chosen exactly when the reply lacks a `connection` member. Otherwise the success message names the data source, the new username and the redacted password. |
| `UpdateDispatch.MessageText` | restore_credentials.py:273-284 | The printed line starts with `ERROR: Error while updating ` exactly for a failed update, and then ends with the reply. A successful update's line ends with ` \| Password: ` and the masked password. |
| `UpdateDispatch.PrintedMessage` | restore_credentials.py:272-284 | The line printed for one update is the error line exactly when the reply lacks `connection`. Otherwise it ends with ` \| Password: ` and the redacted password of that update. |
| `UpdateDispatch.ExpectedAttempt` | restore_credentials.py:264-283 | One update call carries the session headers, the site's id, the data source and connection ids, and the new credentials with `embedPassword = true`. Its message is an error exactly when the reply lacks `connection`. |
| `UpdateDispatch.DispatchConnections` | restore_credentials.py:263-284 | One data source's connection updates are sent one call each, in list order. |
| `UpdateDispatch.DispatchSite` | restore_credentials.py:262-284 | One site's updates are sent one call each, data source after data source, in dict order. |
| `UpdateDispatch.DispatchSession` | restore_credentials.py:261-284 | One site of the plan signs in with its own content URL. Its updates are then sent in the order of `SiteUpdates`, each with that session's token. |
| `UpdateDispatch.DispatchUpdates` | restore_credentials.py:256-284 | Each site signs in once with its own content URL. Every planned update gets exactly one call, in plan order, using its own site's token. A failed reply does not stop the later calls. |
| `UpdateDispatch.RestoreCredentials` | restore_credentials.py:231-284 | When a row fails validation, the command fails with the first such row's error and makes no sign-in or update. Otherwise it makes one update per row, matching the rows as a multiset, each with `embedPassword = true`. Each message is an error exactly when its reply lacks `connection`. It signs in once per site of `Plan(rows)`, in the plan's key order. Every request carries the connection id, data source id, username and password of the row update it is sent for. It also carries the site id that the plan holds for that row's content URL, and the token of that site's own sign-in. |

## Left out

- HTTP and JSON decoding: every `requests.get/post/put` call and `r.json()`.
  - The site listing arrives as a sequence of sites.
  - Each listing reply arrives as the object under `datasources` or `connections`.
  - The sign-in and update replies are function parameters.
  - A reply that lacks an expected key (`sites`, `datasources`, `credentials`, an entry field) raises `KeyError` in the script. That case is not modelled.
  - An update reply that `r.json()` cannot decode, or a transport exception from `requests.put`, ends the script at that update. The model has every update reply decode, so `DispatchUpdates` always goes on to the later calls.
- The sign-ins and sign-outs of the export command.
  - The listing replies are indexed by site id and data source id, not by session token.
  - `logout` has no local logic.
  - Token validity is server behaviour.
- CSV reading and writing and the `csv` module's quoting.
  - The export ends at the record sequence, plus the fixed 13-column header `ExportColumns`.
  - An import row is the values of the eight columns the import reads.
  - A file missing one of those columns (a `KeyError`) is not modelled.
  - The five other columns of an import row are not modelled, because the import never reads them.
- A row field that is `None`, as `csv.DictReader` gives for a short line. In the script, `len(None)` raises `TypeError` before the `is None` test is reached. Fields are modelled as strings.
- Environment configuration (server URL, API version, admin credentials). The admin credentials are parameters. URLs are represented by the ids they carry.
- Printing: the progress lines are not modelled. Each update's message is returned as an `Outcome`, and `MessageText` gives its printed text.
- `serverPort` and every other field are treated as text. Their JSON types are not modelled.
