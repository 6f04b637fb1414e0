/**
 * The update dispatcher and the whole of the import command: one session
 * per site of the plan, one credential update per planned connection, and
 * a success or error message per update. The server is a pair of function
 * parameters: the token it returns for a sign-in body and its reply to an
 * update request.
 */
module UpdateDispatch {
  import opened Wrappers
  import opened OrderedDict
  import opened Session
  import opened CredentialImport

  /** The reply to an update call: the top-level keys of its JSON body, and the body as printed. */
  datatype Reply = Reply(members: set<string>, text: string)

  const ConnectionMember := "connection"
  const UpdateErrorPrefix := "ERROR: Error while updating "
  const PasswordLabel := " | Password: "

  /** `{"connection": {"userName": ..., "password": ..., "embedPassword": ...}}` */
  datatype ConnectionBody = ConnectionBody(userName: string, password: string, embedPassword: bool)

  /** A PUT to `sites/{siteId}/datasources/{datasourceId}/connections/{connectionId}`. */
  datatype UpdateRequest = UpdateRequest(headers: map<string, string>, siteId: string, datasourceId: string,
                                         connectionId: string, body: ConnectionBody)

  /** The message printed after one update call. */
  datatype Outcome =
    | Updated(datasourceName: string, username: string, maskedPassword: string)
    | UpdateFailed(datasourceName: string, siteName: string, reply: string)

  datatype Attempt = Attempt(update: PlannedUpdate, request: UpdateRequest, outcome: Outcome)

  /** The password as printed: its first character, an ellipsis, its last character. */
  function Redact(password: string): (r: string)
    requires |password| != 0
    ensures |r| == 5 && r[1..4] == "..."
    ensures r[0] == password[0] && r[4] == password[|password| - 1]
  {
    [password[0]] + "..." + [password[|password| - 1]]
  }

  lemma RedactExamples()
    ensures Redact("secret") == "s...t"
    ensures Redact("x") == "x...x"
  {
  }

  /** The error message is chosen exactly when the reply has no `connection` member. */
  function ChooseOutcome(datasourceName: string, siteName: string, update: ConnectionUpdate, reply: Reply): (o: Outcome)
    requires |update.password| != 0
    ensures o.UpdateFailed? <==> ConnectionMember !in reply.members
    ensures o.Updated? ==> o == Updated(datasourceName, update.username, Redact(update.password))
    ensures o.UpdateFailed? ==> o == UpdateFailed(datasourceName, siteName, reply.text)
  {
    if ConnectionMember in reply.members then Updated(datasourceName, update.username, Redact(update.password))
    else UpdateFailed(datasourceName, siteName, reply.text)
  }

  /** The line printed for an update: the error text exactly for a failed update. */
  function MessageText(o: Outcome): (text: string)
    ensures o.UpdateFailed? <==> |text| >= |UpdateErrorPrefix| && text[..|UpdateErrorPrefix|] == UpdateErrorPrefix
    ensures o.Updated? ==> |text| >= |PasswordLabel| + |o.maskedPassword|
    ensures o.Updated? ==> text[|text| - |o.maskedPassword| - |PasswordLabel|..] == PasswordLabel + o.maskedPassword
    ensures o.UpdateFailed? ==> |text| >= |o.reply| && text[|text| - |o.reply|..] == o.reply
  {
    match o
    case Updated(name, username, masked) =>
      var text := "Updated data source " + name + ".\nUsername: " + username + PasswordLabel + masked;
      assert text[0] == 'U' != UpdateErrorPrefix[0];
      text
    case UpdateFailed(name, siteName, reply) =>
      var text := UpdateErrorPrefix + name + " on site " + siteName + ":\n" + reply;
      assert text[..|UpdateErrorPrefix|] == UpdateErrorPrefix;
      text
  }

  /**
   * The line printed for one update: the error text exactly when the reply
   * has no `connection` member, and otherwise a line ending in the redacted
   * password of that update.
   */
  lemma PrintedMessage(site: SitePlan, u: PlannedUpdate, token: string, server: UpdateRequest -> Reply)
    requires u.datasourceId in site.datasources.entries && |u.update.password| != 0
    ensures var text := MessageText(ExpectedAttempt(site, u, token, server).outcome);
            && (|text| >= |UpdateErrorPrefix| && text[..|UpdateErrorPrefix|] == UpdateErrorPrefix
                <==> ConnectionMember !in server(ExpectedAttempt(site, u, token, server).request).members)
            && (ConnectionMember in server(ExpectedAttempt(site, u, token, server).request).members ==>
                  text[|text| - 5 - |PasswordLabel|..] == PasswordLabel + Redact(u.update.password))
  {
    var a := ExpectedAttempt(site, u, token, server);
    if a.outcome.Updated? {
      assert |Redact(u.update.password)| == 5;
    }
  }

  /** What the dispatcher does for one planned update of `site`, signed in with `token`. */
  function ExpectedAttempt(site: SitePlan, u: PlannedUpdate, token: string, server: UpdateRequest -> Reply): (a: Attempt)
    requires u.datasourceId in site.datasources.entries && |u.update.password| != 0
    ensures a.update == u
    ensures a.request.headers == AuthorizedHeaders(token)
    ensures a.request.siteId == site.siteId && a.request.datasourceId == u.datasourceId
    ensures a.request.connectionId == u.update.connectionId
    ensures a.request.body == ConnectionBody(u.update.username, u.update.password, true)
    ensures a.outcome.UpdateFailed? <==> ConnectionMember !in server(a.request).members
  {
    var request := UpdateRequest(AuthorizedHeaders(token), site.siteId, u.datasourceId, u.update.connectionId,
                                 ConnectionBody(u.update.username, u.update.password, true));
    Attempt(u, request, ChooseOutcome(site.datasources.entries[u.datasourceId].name, site.siteName, u.update, server(request)))
  }

  /** `a` is what the dispatcher does for its planned update within `site`. */
  ghost predicate PerformedIn(site: SitePlan, token: string, server: UpdateRequest -> Reply, a: Attempt)
  {
    && a.update.datasourceId in site.datasources.entries
    && |a.update.update.password| != 0
    && a == ExpectedAttempt(site, a.update, token, server)
  }

  /** `a` is what the dispatcher does for its planned update, in the session of that update's site. */
  ghost predicate Performed(plan: UpdatePlan, username: string, password: string,
                            signIn: SignInBody -> string, server: UpdateRequest -> Reply, a: Attempt)
  {
    && a.update.siteContentUrl in plan.entries
    && PerformedIn(plan.entries[a.update.siteContentUrl],
                   SiteToken(signIn, username, password, a.update.siteContentUrl), server, a)
  }

  /** The innermost loop: one update call per connection update of one data source. */
  method DispatchConnections(site: SitePlan, url: string, datasourceId: string, token: string,
                             server: UpdateRequest -> Reply)
    returns (attempts: seq<Attempt>)
    requires datasourceId in site.datasources.entries
    requires CredentialsPresent(site.datasources.entries[datasourceId])
    ensures |attempts| == |site.datasources.entries[datasourceId].connections|
    ensures forall t :: 0 <= t < |attempts| ==>
              && attempts[t].update == Tagged(url, datasourceId, site.datasources.entries[datasourceId].connections)[t]
              && PerformedIn(site, token, server, attempts[t])
  {
    var source := site.datasources.entries[datasourceId];
    attempts := [];
    var k := 0;
    while k < |source.connections|
      invariant 0 <= k <= |source.connections|
      invariant |attempts| == k
      invariant forall t :: 0 <= t < k ==>
                  && attempts[t].update == PlannedUpdate(url, datasourceId, source.connections[t])
                  && PerformedIn(site, token, server, attempts[t])
    {
      var connection := source.connections[k];
      assert connection in source.connections;
      var headers := RequestHeaders(Some(token));
      assert headers == AuthorizedHeaders(token);
      var request := UpdateRequest(headers, site.siteId, datasourceId, connection.connectionId,
                                   ConnectionBody(connection.username, connection.password, true));
      var reply := server(request);
      var outcome := Updated(source.name, connection.username, Redact(connection.password));
      if ConnectionMember !in reply.members {
        outcome := UpdateFailed(source.name, site.siteName, reply.text);
      }
      attempts := attempts + [Attempt(PlannedUpdate(url, datasourceId, connection), request, outcome)];
      k := k + 1;
    }
  }

  /** The middle loop: every data source of one site, in the site's dict order. */
  method DispatchSite(site: SitePlan, url: string, token: string, server: UpdateRequest -> Reply)
    returns (attempts: seq<Attempt>)
    requires SiteWellFormed(site)
    ensures |attempts| == |SiteUpdates(url, site)|
    ensures forall t :: 0 <= t < |attempts| ==>
              attempts[t].update == SiteUpdates(url, site)[t] && PerformedIn(site, token, server, attempts[t])
  {
    var keys := site.datasources.keys;
    attempts := [];
    var j := 0;
    while j < |keys|
      invariant 0 <= j <= |keys|
      invariant |attempts| == |FlatMap(keys[..j], site.datasources.entries, DatasourceUpdates(url))|
      invariant forall t :: 0 <= t < |attempts| ==>
                  && attempts[t].update == FlatMap(keys[..j], site.datasources.entries, DatasourceUpdates(url))[t]
                  && PerformedIn(site, token, server, attempts[t])
    {
      var datasourceId := keys[j];
      assert datasourceId in keys;
      var more := DispatchConnections(site, url, datasourceId, token, server);
      attempts := attempts + more;
      assert keys[..j + 1][..j] == keys[..j];
      j := j + 1;
    }
    assert keys[..j] == keys;
  }

  /** What DispatchSite promises for a site of the plan is what DispatchUpdates promises. */
  lemma SitePerformed(plan: UpdatePlan, username: string, password: string, signIn: SignInBody -> string,
                      server: UpdateRequest -> Reply, url: string, more: seq<Attempt>)
    requires url in plan.entries
    requires forall t :: 0 <= t < |more| ==>
               && more[t].update in SiteUpdates(url, plan.entries[url])
               && PerformedIn(plan.entries[url], SiteToken(signIn, username, password, url), server, more[t])
    ensures AllPerformed(plan, username, password, signIn, server, more)
  {
    SiteUpdatesUrl(url, plan.entries[url]);
  }

  ghost predicate AllPerformed(plan: UpdatePlan, username: string, password: string,
                               signIn: SignInBody -> string, server: UpdateRequest -> Reply, attempts: seq<Attempt>)
  {
    forall t :: 0 <= t < |attempts| ==> Performed(plan, username, password, signIn, server, attempts[t])
  }

  lemma AllPerformedConcat(plan: UpdatePlan, username: string, password: string,
                           signIn: SignInBody -> string, server: UpdateRequest -> Reply, a: seq<Attempt>, b: seq<Attempt>)
    requires AllPerformed(plan, username, password, signIn, server, a)
    requires AllPerformed(plan, username, password, signIn, server, b)
    ensures AllPerformed(plan, username, password, signIn, server, a + b)
  {
    forall t | 0 <= t < |a + b|
      ensures Performed(plan, username, password, signIn, server, (a + b)[t])
    {
      if t < |a| {
        assert (a + b)[t] == a[t];
      } else {
        assert (a + b)[t] == b[t - |a|];
      }
    }
  }

  /** One site of the plan: sign in to it, then send its updates with that session's token. */
  method DispatchSession(plan: UpdatePlan, url: string, username: string, password: string,
                         signIn: SignInBody -> string, server: UpdateRequest -> Reply)
    returns (payload: SignInBody, more: seq<Attempt>)
    requires WellFormed(plan) && url in plan.keys
    ensures payload == SignInBody(SignInCredentials(username, password, SiteScope(url)))
    ensures UpdatesOf(more) == SiteUpdates(url, plan.entries[url])
    ensures AllPerformed(plan, username, password, signIn, server, more)
  {
    var site := plan.entries[url];
    assert SiteWellFormed(site);
    payload := SignInPayload(username, password, Some(url));
    var token := signIn(payload);
    more := DispatchSite(site, url, token, server);
    SitePerformed(plan, username, password, signIn, server, url, more);
  }

  /**
   * The second loop of `update_datasources_from_csv`: per site, sign in to
   * that site, then send every planned connection of it one update. A
   * failed update does not stop the ones after it.
   */
  method DispatchUpdates(plan: UpdatePlan, username: string, password: string,
                         signIn: SignInBody -> string, server: UpdateRequest -> Reply)
    returns (signIns: seq<SignInBody>, attempts: seq<Attempt>)
    requires WellFormed(plan)
    ensures |signIns| == |plan.keys|
    ensures forall i :: 0 <= i < |plan.keys| ==>
              signIns[i] == SignInBody(SignInCredentials(username, password, SiteScope(plan.keys[i])))
    ensures |attempts| == |Planned(plan)|
    ensures forall t :: 0 <= t < |attempts| ==>
              attempts[t].update == Planned(plan)[t] && Performed(plan, username, password, signIn, server, attempts[t])
  {
    signIns, attempts := [], [];
    var i := 0;
    while i < |plan.keys|
      invariant i <= |plan.keys|
      invariant Dispatched(plan, username, password, signIn, server, i, signIns, attempts)
    {
      var url := plan.keys[i];
      assert url in plan.keys;
      var payload, more := DispatchSession(plan, url, username, password, signIn, server);
      DispatchedStep(plan, username, password, signIn, server, i, signIns, attempts, payload, more);
      signIns, attempts := signIns + [payload], attempts + more;
      i := i + 1;
    }
    assert plan.keys[..i] == plan.keys;
  }

  /** The state of DispatchUpdates after the first `i` sites of the plan. */
  ghost predicate Dispatched(plan: UpdatePlan, username: string, password: string,
                             signIn: SignInBody -> string, server: UpdateRequest -> Reply,
                             i: nat, signIns: seq<SignInBody>, attempts: seq<Attempt>)
  {
    && i <= |plan.keys|
    && |signIns| == i
    && (forall s :: 0 <= s < i ==>
          signIns[s] == SignInBody(SignInCredentials(username, password, SiteScope(plan.keys[s]))))
    && UpdatesOf(attempts) == FlatMap(plan.keys[..i], plan.entries, SiteUpdates)
    && AllPerformed(plan, username, password, signIn, server, attempts)
  }

  /** One more site's sign-in and updates extend the state by that site. */
  lemma DispatchedStep(plan: UpdatePlan, username: string, password: string,
                       signIn: SignInBody -> string, server: UpdateRequest -> Reply,
                       i: nat, signIns: seq<SignInBody>, attempts: seq<Attempt>,
                       payload: SignInBody, more: seq<Attempt>)
    requires WellFormed(plan) && i < |plan.keys|
    requires Dispatched(plan, username, password, signIn, server, i, signIns, attempts)
    requires payload == SignInBody(SignInCredentials(username, password, SiteScope(plan.keys[i])))
    requires UpdatesOf(more) == SiteUpdates(plan.keys[i], plan.entries[plan.keys[i]])
    requires AllPerformed(plan, username, password, signIn, server, more)
    ensures Dispatched(plan, username, password, signIn, server, i + 1, signIns + [payload], attempts + more)
  {
    assert plan.keys[i] in plan.keys;
    FlatMapStep(plan.keys, i, plan.entries, SiteUpdates);
    AllPerformedConcat(plan, username, password, signIn, server, attempts, more);
    UpdatesOfConcat(attempts, more);
  }

  function UpdatesOf(attempts: seq<Attempt>): seq<PlannedUpdate>
  {
    seq(|attempts|, t requires 0 <= t < |attempts| => attempts[t].update)
  }

  lemma UpdatesOfConcat(a: seq<Attempt>, b: seq<Attempt>)
    ensures UpdatesOf(a + b) == UpdatesOf(a) + UpdatesOf(b)
  {
    assert forall t :: 0 <= t < |b| ==> (a + b)[|a| + t] == b[t];
  }

  /**
   * `update_datasources_from_csv` after the file is read: validate and
   * group every row first; only if all rows pass, sign in per site and
   * send one update per row.
   */
  method RestoreCredentials(rows: seq<ImportRow>, username: string, password: string,
                            signIn: SignInBody -> string, server: UpdateRequest -> Reply)
    returns (result: Result<seq<Attempt>, ImportError>, signIns: seq<SignInBody>)
    ensures result.Failure? <==> exists j :: 0 <= j < |rows| && CheckRow(rows[j]).Some?
    ensures result.Failure? ==>
              && signIns == []
              && exists j :: && 0 <= j < |rows| && CheckRow(rows[j]) == Some(result.error)
                             && forall i :: 0 <= i < j ==> CheckRow(rows[i]) == None
    ensures result.Success? ==>
              && |result.value| == |rows|
              && multiset(UpdatesOf(result.value)) == multiset(RowUpdates(rows))
              && forall t :: 0 <= t < |result.value| ==>
                   && result.value[t].request.body.embedPassword
                   && (result.value[t].outcome.UpdateFailed?
                       <==> ConnectionMember !in server(result.value[t].request).members)
    ensures result.Success? ==>
              && Plan(rows).Success?
              && |signIns| == |Plan(rows).value.keys|
              && (forall i :: 0 <= i < |signIns| ==>
                    signIns[i] == SignInBody(SignInCredentials(username, password, SiteScope(Plan(rows).value.keys[i]))))
              && forall t :: 0 <= t < |result.value| ==>
                   Performed(Plan(rows).value, username, password, signIn, server, result.value[t])
    // Each request carries the credentials and ids of the row update it is sent for,
    // the id of that row's site, and the token of that site's own sign-in.
    ensures result.Success? ==>
              forall t :: 0 <= t < |result.value| ==>
                && result.value[t].update.siteContentUrl in Plan(rows).value.entries
                && result.value[t].request.siteId == Plan(rows).value.entries[result.value[t].update.siteContentUrl].siteId
                && result.value[t].request.datasourceId == result.value[t].update.datasourceId
                && result.value[t].request.connectionId == result.value[t].update.update.connectionId
                && result.value[t].request.body.userName == result.value[t].update.update.username
                && result.value[t].request.body.password == result.value[t].update.update.password
                && result.value[t].request.headers
                   == AuthorizedHeaders(SiteToken(signIn, username, password, result.value[t].update.siteContentUrl))
  {
    PlanFailsAtFirstInvalidRow(rows);
    var collected := CollectUpdates(rows);
    if collected.Failure? {
      return Failure(collected.error), [];
    }
    var plan := collected.value;
    PlanWellFormed(rows);
    PlanMatchesRows(rows);
    var attempts;
    signIns, attempts := DispatchUpdates(plan, username, password, signIn, server);
    assert UpdatesOf(attempts) == Planned(plan);
    forall t | 0 <= t < |attempts|
      ensures attempts[t].request.body.embedPassword
      ensures attempts[t].outcome.UpdateFailed? <==> ConnectionMember !in server(attempts[t].request).members
      ensures attempts[t].update.siteContentUrl in plan.entries
      ensures attempts[t].request.siteId == plan.entries[attempts[t].update.siteContentUrl].siteId
      ensures attempts[t].request.datasourceId == attempts[t].update.datasourceId
      ensures attempts[t].request.connectionId == attempts[t].update.update.connectionId
      ensures attempts[t].request.body.userName == attempts[t].update.update.username
      ensures attempts[t].request.body.password == attempts[t].update.update.password
      ensures attempts[t].request.headers
              == AuthorizedHeaders(SiteToken(signIn, username, password, attempts[t].update.siteContentUrl))
    {
      assert Performed(plan, username, password, signIn, server, attempts[t]);
    }
    result := Success(attempts);
  }
}
