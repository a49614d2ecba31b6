/**
 Properties of the server's handlers over the in-memory store: what a seed
 writes and in which order, what stays behind when it stops early, when the
 guard lets a second seed through, and what any sequence of events does to
 the store.
 */
module ServerProperties {
  import opened Entities
  import opened InMemoryDB
  import opened WriteLog
  import opened Server

  /*
   * The `token` handler.
   */

  /** The store a token event leaves, read off the seed's write log: the i-th batch of the log lands in the
      collection of rank i. */
  lemma HandleTokenFromLog(s: Store, token: string, api: Api)
    ensures var w := Seed(s, token, api).writes;
            HandleToken(s, token, api)
            == Store(if |w| >= 1 then w[0].token else s.token,
                     s.orgs + (if |w| >= 2 then w[1].orgs else []),
                     s.members + (if |w| >= 3 then w[2].members else []),
                     s.repos + (if |w| >= 4 then w[3].repos else []),
                     s.commits + (if |w| >= 5 then w[4].commits else []))
  {
    var run := Seed(s, token, api);
    ApplyWritesContents(s, run.writes);
    OrderedWritesContents(s.token, run.writes);
  }

  /** The seed reads nothing of the store but its token. */
  lemma SeedDependsOnlyOnToken(s: Store, s': Store, token: string, api: Api)
    requires s.token == s'.token
    ensures Seed(s, token, api) == Seed(s', token, api)
  {
  }

  /** With a truthy token stored, a `token` event changes nothing. */
  lemma TokenHeldSkipsSeed(s: Store, token: string, api: Api)
    requires Truthy(s.token)
    ensures HandleToken(s, token, api) == s
  {
  }

  /** Once a truthy token has been handed over, every later `token` event is a no-op. */
  lemma SeedAtMostOnce(s: Store, token: string, api: Api, token': string, api': Api)
    requires Truthy(token)
    ensures var s1 := HandleToken(s, token, api);
            HandleToken(s1, token', api') == s1
  {
  }

  /** An event with an empty token runs the seed but leaves the guard open for the next one. */
  lemma EmptyTokenLeavesGuardOpen(s: Store, api: Api, token': string, api': Api)
    requires !Truthy(s.token)
    ensures Seed(HandleToken(s, "", api), token', api').status != Skipped
  {
  }

  /** A completed seed appends the organizations, the first organization's members, its repositories and
      the commits of the first branch of the first repository, and sets the token. */
  lemma SeedCompletedStore(s: Store, token: string, api: Api)
    requires Seed(s, token, api).status == Completed
    ensures api.listOrgs.Ok? && |api.listOrgs.value| > 0
    ensures var orgs := api.listOrgs.value;
            api.createHook(orgs[0].login).Ok? && api.getOrg(orgs[0].login).Ok?
    ensures var org := api.getOrg(api.listOrgs.value[0].login).value;
            && api.listMembers(org.login).Ok?
            && api.listRepos(org.login).Ok? && |api.listRepos(org.login).value| > 0
    ensures var org := api.getOrg(api.listOrgs.value[0].login).value;
            var repo := api.listRepos(org.login).value[0];
            && api.listBranches(repo.ownerLogin, repo.name).Ok?
            && |api.listBranches(repo.ownerLogin, repo.name).value| > 0
            && api.listCommits(repo.ownerLogin, repo.name, api.listBranches(repo.ownerLogin, repo.name).value[0].name).Ok?
    ensures var orgs := api.listOrgs.value;
            var org := api.getOrg(orgs[0].login).value;
            var repos := api.listRepos(org.login).value;
            var branches := api.listBranches(repos[0].ownerLogin, repos[0].name).value;
            HandleToken(s, token, api)
            == Store(token,
                     s.orgs + orgs,
                     s.members + api.listMembers(org.login).value,
                     s.repos + repos,
                     s.commits + api.listCommits(repos[0].ownerLogin, repos[0].name, branches[0].name).value)
  {
    HandleTokenFromLog(s, token, api);
  }

  /** Conversely, when every request succeeds and the organization, repository and branch lists are not
      empty, the seed completes; of the commits it stores only those of the first branch of the first
      repository of the first organization, whatever the other branches and repositories hold. */
  lemma SeedCompletesOnSuccess(s: Store, token: string, api: Api, orgs: seq<Org>, org: Org, members: seq<Member>,
                               repos: seq<Repo>, branches: seq<Branch>, commits: seq<Commit>)
    requires !Truthy(s.token)
    requires api.listOrgs == Ok(orgs) && |orgs| > 0
    requires api.createHook(orgs[0].login).Ok?
    requires api.getOrg(orgs[0].login) == Ok(org)
    requires api.listMembers(org.login) == Ok(members)
    requires api.listRepos(org.login) == Ok(repos) && |repos| > 0
    requires api.listBranches(repos[0].ownerLogin, repos[0].name) == Ok(branches) && |branches| > 0
    requires api.listCommits(repos[0].ownerLogin, repos[0].name, branches[0].name) == Ok(commits)
    ensures Seed(s, token, api).status == Completed
    ensures HandleToken(s, token, api)
         == Store(token, s.orgs + orgs, s.members + members, s.repos + repos, s.commits + commits)
  {
    SeedCompletedStore(s, token, api);
  }

  /** A rejected branch listing aborts the seed before the repositories are appended: the listing is
      awaited before the repository write. */
  lemma RejectedBranchesAbortSeed(s: Store, token: string, api: Api, org: Org, members: seq<Member>,
                                  repos: seq<Repo>, e: RequestError)
    requires !Truthy(s.token)
    requires api.listOrgs.Ok? && |api.listOrgs.value| > 0
    requires api.createHook(api.listOrgs.value[0].login).Ok?
    requires api.getOrg(api.listOrgs.value[0].login) == Ok(org)
    requires api.listMembers(org.login) == Ok(members)
    requires api.listRepos(org.login) == Ok(repos) && |repos| > 0
    requires api.listBranches(repos[0].ownerLogin, repos[0].name) == Rejected(e)
    ensures Seed(s, token, api).status == Aborted(FetchBranches, RequestFailed(e))
    ensures HandleToken(s, token, api) == Store(token, s.orgs + api.listOrgs.value, s.members + members, s.repos, s.commits)
  {
    HandleTokenFromLog(s, token, api);
  }

  /** A rejected hook registration aborts the seed with the organizations stored and no member. */
  lemma RejectedHookAbortsSeed(s: Store, token: string, api: Api, e: RequestError)
    requires !Truthy(s.token)
    requires api.listOrgs.Ok? && |api.listOrgs.value| > 0
    requires api.createHook(api.listOrgs.value[0].login) == Rejected(e)
    ensures Seed(s, token, api).status == Aborted(RegisterHook, RequestFailed(e))
    ensures HandleToken(s, token, api) == Store(token, s.orgs + api.listOrgs.value, s.members, s.repos, s.commits)
  {
    HandleTokenFromLog(s, token, api);
  }

  /** A seed that stops early keeps what it wrote before the failing step: the token always, the organizations
      once the listing succeeded, the members once the repository listing was reached, the repositories only
      when it stopped at the commit listing, and never any commit. */
  lemma SeedAbortedKeepsPartialState(s: Store, token: string, api: Api)
    requires Seed(s, token, api).status.Aborted?
    ensures var r := HandleToken(s, token, api);
            var step := Seed(s, token, api).status.step;
            && Extends(s, r)
            && r.token == token
            && r.commits == s.commits
            && (step == FetchOrgs ==> r == SetToken(s, token))
            && (step != FetchOrgs ==> api.listOrgs.Ok? && r.orgs == s.orgs + api.listOrgs.value)
            && (WritesBefore(step) <= 2 ==> r.members == s.members)
            && (step != FetchCommits ==> r.repos == s.repos)
    ensures var step := Seed(s, token, api).status.step;
            WritesBefore(step) >= 3 ==>
              && api.listOrgs.Ok? && |api.listOrgs.value| > 0
              && api.getOrg(api.listOrgs.value[0].login).Ok?
              && var org := api.getOrg(api.listOrgs.value[0].login).value;
                 && api.listMembers(org.login).Ok?
                 && HandleToken(s, token, api).members == s.members + api.listMembers(org.login).value
                 && (step == FetchCommits ==>
                       api.listRepos(org.login).Ok?
                       && HandleToken(s, token, api).repos == s.repos + api.listRepos(org.login).value)
  {
    HandleTokenFromLog(s, token, api);
  }

  /** An empty organization list aborts the seed at the hook registration, after the token and the (empty)
      organization batch were written. */
  lemma EmptyOrgsAbortSeed(s: Store, token: string, api: Api)
    requires !Truthy(s.token)
    requires api.listOrgs == Ok([])
    ensures Seed(s, token, api).status == Aborted(RegisterHook, UndefinedFirst)
    ensures HandleToken(s, token, api) == SetToken(s, token)
  {
    HandleTokenFromLog(s, token, api);
    assert s.orgs + [] == s.orgs;
  }

  /** An empty repository list aborts the seed before the repositories are appended. */
  lemma EmptyReposAbortSeed(s: Store, token: string, api: Api, org: Org, members: seq<Member>)
    requires !Truthy(s.token)
    requires api.listOrgs.Ok? && |api.listOrgs.value| > 0
    requires api.createHook(api.listOrgs.value[0].login).Ok?
    requires api.getOrg(api.listOrgs.value[0].login) == Ok(org)
    requires api.listMembers(org.login) == Ok(members)
    requires api.listRepos(org.login) == Ok([])
    ensures Seed(s, token, api).status == Aborted(FetchBranches, UndefinedFirst)
    ensures HandleToken(s, token, api) == Store(token, s.orgs + api.listOrgs.value, s.members + members, s.repos, s.commits)
  {
    HandleTokenFromLog(s, token, api);
  }

  /** An empty branch list aborts the seed after the repositories were appended, with no commit stored. */
  lemma EmptyBranchesAbortSeed(s: Store, token: string, api: Api, org: Org, members: seq<Member>, repos: seq<Repo>)
    requires !Truthy(s.token)
    requires api.listOrgs.Ok? && |api.listOrgs.value| > 0
    requires api.createHook(api.listOrgs.value[0].login).Ok?
    requires api.getOrg(api.listOrgs.value[0].login) == Ok(org)
    requires api.listMembers(org.login) == Ok(members)
    requires api.listRepos(org.login) == Ok(repos) && |repos| > 0
    requires api.listBranches(repos[0].ownerLogin, repos[0].name) == Ok([])
    ensures Seed(s, token, api).status == Aborted(FetchCommits, UndefinedFirst)
    ensures HandleToken(s, token, api)
         == Store(token, s.orgs + api.listOrgs.value, s.members + members, s.repos + repos, s.commits)
  {
    HandleTokenFromLog(s, token, api);
  }

  /** While the stored token stays empty, a repeated `token` event seeds again and stores every batch twice. */
  lemma EmptyTokenReseedDuplicates(s: Store, api: Api)
    requires Seed(s, "", api).status == Completed
    ensures var s1 := Replay(s, [Authorized("", api)]);
            var s2 := Replay(s, [Authorized("", api), Authorized("", api)]);
            && Seed(s1, "", api).status == Completed
            && s2.token == ""
            && s2.orgs == s.orgs + api.listOrgs.value + api.listOrgs.value
            && s2.members == s.members + MembersIn(Seed(s, "", api).writes) + MembersIn(Seed(s, "", api).writes)
            && s2.repos == s.repos + ReposIn(Seed(s, "", api).writes) + ReposIn(Seed(s, "", api).writes)
            && s2.commits == s.commits + CommitsIn(Seed(s, "", api).writes) + CommitsIn(Seed(s, "", api).writes)
  {
    var e := Authorized("", api);
    var run := Seed(s, "", api);
    var s1 := HandleToken(s, "", api);
    ReplaySingle(s, e);
    ReplaySingle(s1, e);
    ReplayConcat(s, [e], [e]);
    assert [e] + [e] == [e, e];
    ApplyWritesContents(s, run.writes);
    OrderedWritesContents(s.token, run.writes);
    assert s1.token == "";
    SeedDependsOnlyOnToken(s, s1, "", api);
    ApplyWritesContents(s1, run.writes);
  }

  /*
   * The `push` handler and the read routes.
   */

  /** A redelivered push stores its commits twice: there is no deduplication. */
  lemma PushRedeliveryDuplicates(s: Store, commits: seq<Commit>)
    ensures var r := HandlePush(HandlePush(s, commits), commits);
            && r.commits == s.commits + commits + commits
            && multiset(r.commits) == multiset(s.commits) + multiset(commits) + multiset(commits)
  {
    CommitsNotDeduplicated(s, commits);
  }

  /** After a push, the commits route answers the earlier answer followed by the payload, and the other
      routes answer as before. */
  lemma RoutesAfterPush(s: Store, commits: seq<Commit>, route: Route)
    ensures route == CommitsRoute ==>
              Get(HandlePush(s, commits), route) == CommitsReply(Get(s, route).commits + commits)
    ensures route != CommitsRoute ==> Get(HandlePush(s, commits), route) == Get(s, route)
  {
  }

  /*
   * Sequences of events.
   */

  /** The commits carried by the push events of `es`, in event order. */
  function PushedCommits(es: seq<Event>): seq<Commit>
    decreases |es|
  {
    if es == [] then [] else (if es[0].Pushed? then es[0].commits else []) + PushedCommits(es[1..])
  }

  /** Every event of `es` is a push. */
  predicate OnlyPushes(es: seq<Event>) {
    forall i :: 0 <= i < |es| ==> es[i].Pushed?
  }

  /** A push, whatever the token, and any event while a truthy token is stored, appends the commits it
      pushes and nothing else. */
  lemma HandleAppendsPushedCommits(s: Store, e: Event)
    requires Truthy(s.token) || e.Pushed?
    ensures Handle(s, e) == s.(commits := s.commits + PushedCommits([e]))
  {
    assert [e][1..] == [];
    if e.Authorized? {
      TokenHeldSkipsSeed(s, e.token, e.api);
    }
    assert s.commits + [] == s.commits;
  }

  /** One step of a replay whose first event only appends its pushed commits. */
  lemma ReplayStepAppends(s: Store, es: seq<Event>)
    requires es != [] && (Truthy(s.token) || es[0].Pushed?)
    ensures Replay(s, es) == Replay(s.(commits := s.commits + PushedCommits([es[0]])), es[1..])
  {
    HandleAppendsPushedCommits(s, es[0]);
  }

  lemma PushedCommitsCons(es: seq<Event>)
    requires es != []
    ensures PushedCommits(es) == PushedCommits([es[0]]) + PushedCommits(es[1..])
  {
    assert [es[0]][1..] == [];
    var pushed := if es[0].Pushed? then es[0].commits else [];
    assert pushed + [] == pushed;
  }

  lemma OnlyPushesTail(es: seq<Event>)
    requires es != [] && OnlyPushes(es)
    ensures OnlyPushes(es[1..])
  {
    assert forall i :: 0 <= i < |es[1..]| ==> es[1..][i] == es[i + 1];
  }

  /** Appending commits in two batches appends them joined. */
  lemma AppendCommitsTwice(s: Store, a: seq<Commit>, b: seq<Commit>)
    ensures s.(commits := s.commits + a).(commits := s.commits + a + b) == s.(commits := s.commits + (a + b))
  {
    assert s.commits + a + b == s.commits + (a + b);
  }

  /** Once a truthy token is stored, and before it is when only pushes arrive, events only ever append
      pushed commits, in the order they arrive. */
  lemma {:induction false} ReplayAppendsPushedCommits(s: Store, es: seq<Event>)
    requires Truthy(s.token) || OnlyPushes(es)
    ensures Replay(s, es) == s.(commits := s.commits + PushedCommits(es))
    decreases |es|
  {
    if es == [] {
      assert s.commits + [] == s.commits;
    } else {
      var first := PushedCommits([es[0]]);
      var s1 := s.(commits := s.commits + first);
      ReplayStepAppends(s, es);
      if !Truthy(s.token) {
        OnlyPushesTail(es);
      }
      ReplayAppendsPushedCommits(s1, es[1..]);
      PushedCommitsCons(es);
      AppendCommitsTwice(s, first, PushedCommits(es[1..]));
    }
  }

  lemma ReplaySingle(s: Store, e: Event)
    ensures Replay(s, [e]) == Handle(s, e)
  {
    assert [e][1..] == [];
  }

  /** Replaying two runs of events one after the other is replaying them joined. */
  lemma {:induction false} ReplayConcat(s: Store, es1: seq<Event>, es2: seq<Event>)
    ensures Replay(s, es1 + es2) == Replay(Replay(s, es1), es2)
    decreases |es1|
  {
    if es1 == [] {
      assert es1 + es2 == es2;
    } else {
      assert (es1 + es2)[0] == es1[0];
      assert (es1 + es2)[1..] == es1[1..] + es2;
      ReplayConcat(Handle(s, es1[0]), es1[1..], es2);
    }
  }

  /** A server that receives pushes and then a truthy token seeds exactly once, from the store the pushes
      left, and runs the same seed it would have run without them; later events, whatever they are, only
      append pushed commits to the seeded store. */
  lemma ServerSeedsOnce(s: Store, ps: seq<Event>, token: string, api: Api, es: seq<Event>)
    requires OnlyPushes(ps)
    requires Truthy(token)
    ensures var before := s.(commits := s.commits + PushedCommits(ps));
            Seed(before, token, api) == Seed(s, token, api)
    ensures var before := s.(commits := s.commits + PushedCommits(ps));
            var seeded := HandleToken(before, token, api);
            Replay(s, ps + [Authorized(token, api)] + es)
            == seeded.(commits := seeded.commits + PushedCommits(es))
  {
    var before := s.(commits := s.commits + PushedCommits(ps));
    var seeded := HandleToken(before, token, api);
    ReplayAppendsPushedCommits(s, ps);
    ReplayConcat(s, ps, [Authorized(token, api)] + es);
    assert ps + [Authorized(token, api)] + es == ps + ([Authorized(token, api)] + es);
    assert ([Authorized(token, api)] + es)[1..] == es;
    ReplayAppendsPushedCommits(seeded, es);
  }
}
