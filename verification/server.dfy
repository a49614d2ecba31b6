/**
 The server's handlers as transitions of the store.

 - The OAuth `token` handler seeds the store once: guarded by the truthiness
   of the stored token, it stores the new token and then walks the remote
   API, appending the organizations, the first organization's members, its
   repositories, and the commits of the first branch of the first repository.
   Each awaited request may reject, and reading `data[0]` of an empty list
   throws; either ends the handler, and whatever it already wrote stays.
 - The `push` webhook handler appends the payload's commits.
 - The four read routes return the current collections.

 The seed is modelled as the list of store writes it performs, in order,
 together with how it ended; the new store is those writes applied in turn.
 */
module Server {
  import opened Entities
  import opened InMemoryDB
  import opened WriteLog

  /** The remote endpoints the token handler calls, each as a total function from its arguments to its response. */
  datatype Api = Api(
    listOrgs: Response<seq<Org>>,                                     // GET /user/orgs
    createHook: string -> Response<()>,                               // POST /orgs/{org}/hooks
    getOrg: string -> Response<Org>,                                  // GET /orgs/{org}
    listMembers: string -> Response<seq<Member>>,                     // GET /orgs/{org}/members
    listRepos: string -> Response<seq<Repo>>,                         // GET /orgs/{org}/repos
    listBranches: (string, string) -> Response<seq<Branch>>,          // GET /repos/{owner}/{repo}/branches
    listCommits: (string, string, string) -> Response<seq<Commit>>)   // GET /repos/{owner}/{repo}/commits?sha=

  /** The steps of the seed that can end it, in the order the handler reaches them. */
  datatype Step = FetchOrgs | RegisterHook | FetchOrg | FetchMembers | FetchRepos | FetchBranches | FetchCommits

  /** Why the seed stopped: a rejected request, or `data[0].x` read from an empty list (a TypeError). */
  datatype Cause = RequestFailed(error: RequestError) | UndefinedFirst

  datatype Status = Skipped | Completed | Aborted(step: Step, cause: Cause)

  /** The writes a seed performed, in order, and how it ended. */
  datatype SeedRun = SeedRun(writes: seq<Write>, status: Status)

  /** How many writes the handler has made when it reaches `step`. */
  function WritesBefore(step: Step): nat {
    match step
    case FetchOrgs => 1
    case RegisterHook => 2
    case FetchOrg => 2
    case FetchMembers => 2
    case FetchRepos => 3
    case FetchBranches => 3
    case FetchCommits => 4
  }

  /** `run` is the tail of a seed that had made `done` writes before it: its writes carry the ranks that
      follow, and it ends after all five writes exactly when it completes. */
  predicate ConsistentFrom(done: nat, run: SeedRun) {
    && (forall i :: 0 <= i < |run.writes| ==> Rank(run.writes[i]) == done + i)
    && (run.status == Completed <==> done + |run.writes| == 5)
    && (run.status.Aborted? ==> done + |run.writes| == WritesBefore(run.status.step))
  }

  /** A whole seed run: its writes in handler order from the first, and its status matching their number. */
  predicate Consistent(run: SeedRun) {
    ConsistentFrom(0, run)
  }

  /** Puts `w` in front of the writes of a later stage of the seed. */
  function Prepend(w: Write, run: SeedRun): (r: SeedRun)
    requires ConsistentFrom(Rank(w) + 1, run)
    ensures ConsistentFrom(Rank(w), r)
    ensures r.writes == [w] + run.writes && r.status == run.status
  {
    var r := SeedRun([w] + run.writes, run.status);
    assert forall i :: 1 <= i < |r.writes| ==> r.writes[i] == run.writes[i - 1];
    r
  }

  /** Last stage: read the commits of the first branch of `repo` and append them. */
  function SeedCommits(api: Api, repo: Repo, branches: seq<Branch>): (r: SeedRun)
    ensures ConsistentFrom(4, r)
    ensures r.status == Completed <==>
              |branches| > 0 && api.listCommits(repo.ownerLogin, repo.name, branches[0].name).Ok?
    ensures r.status == Completed ==>
              r.writes == [CommitsWrite(api.listCommits(repo.ownerLogin, repo.name, branches[0].name).value)]
    ensures r.status != Completed ==> r.writes == [] && r.status.Aborted? && r.status.step == FetchCommits
    ensures |branches| == 0 ==> r.status == Aborted(FetchCommits, UndefinedFirst)
  {
    if |branches| == 0 then SeedRun([], Aborted(FetchCommits, UndefinedFirst))
    else
      match api.listCommits(repo.ownerLogin, repo.name, branches[0].name)
      case Rejected(e) => SeedRun([], Aborted(FetchCommits, RequestFailed(e)))
      case Ok(commits) => SeedRun([CommitsWrite(commits)], Completed)
  }

  /** From the repository listing: read the first repository's branches, then append the repositories. */
  function SeedRepos(api: Api, login: string): (r: SeedRun)
    ensures ConsistentFrom(3, r)
    ensures r.status != Skipped
    ensures r.writes != [] ==>
              && api.listRepos(login).Ok?
              && |api.listRepos(login).value| > 0
              && r.writes[0] == ReposWrite(api.listRepos(login).value)
    ensures r.writes != [] ==>
              api.listBranches(api.listRepos(login).value[0].ownerLogin, api.listRepos(login).value[0].name).Ok?
    ensures api.listRepos(login).Rejected? ==>
              r == SeedRun([], Aborted(FetchRepos, RequestFailed(api.listRepos(login).error)))
    ensures api.listRepos(login) == Ok([]) ==> r == SeedRun([], Aborted(FetchBranches, UndefinedFirst))
    ensures api.listRepos(login).Ok? && |api.listRepos(login).value| > 0 ==>
              var repo := api.listRepos(login).value[0];
              api.listBranches(repo.ownerLogin, repo.name).Rejected? ==>
                r == SeedRun([], Aborted(FetchBranches, RequestFailed(api.listBranches(repo.ownerLogin, repo.name).error)))
  {
    match api.listRepos(login)
    case Rejected(e) => SeedRun([], Aborted(FetchRepos, RequestFailed(e)))
    case Ok(repos) =>
      if |repos| == 0 then SeedRun([], Aborted(FetchBranches, UndefinedFirst))
      else
        match api.listBranches(repos[0].ownerLogin, repos[0].name)
        case Rejected(e) => SeedRun([], Aborted(FetchBranches, RequestFailed(e)))
        case Ok(branches) => Prepend(ReposWrite(repos), SeedCommits(api, repos[0], branches))
  }

  /** From the organization listing: register the hook, fetch the organization, append its members, go on. */
  function SeedOrg(api: Api, orgs: seq<Org>): (r: SeedRun)
    ensures ConsistentFrom(2, r)
    ensures r.status != Skipped
    ensures |orgs| == 0 ==> r == SeedRun([], Aborted(RegisterHook, UndefinedFirst))
    ensures |orgs| > 0 && api.createHook(orgs[0].login).Rejected? ==>
              r == SeedRun([], Aborted(RegisterHook, RequestFailed(api.createHook(orgs[0].login).error)))
    ensures |orgs| > 0 && api.createHook(orgs[0].login).Ok? && api.getOrg(orgs[0].login).Rejected? ==>
              r == SeedRun([], Aborted(FetchOrg, RequestFailed(api.getOrg(orgs[0].login).error)))
    ensures |orgs| > 0 && api.createHook(orgs[0].login).Ok? && api.getOrg(orgs[0].login).Ok? ==>
              var login := api.getOrg(orgs[0].login).value.login;
              api.listMembers(login).Rejected? ==>
                r == SeedRun([], Aborted(FetchMembers, RequestFailed(api.listMembers(login).error)))
    ensures r.writes != [] ==>
              && |orgs| > 0
              && api.createHook(orgs[0].login).Ok?
              && api.getOrg(orgs[0].login).Ok?
              && api.listMembers(api.getOrg(orgs[0].login).value.login).Ok?
              && r.writes[0] == MembersWrite(api.listMembers(api.getOrg(orgs[0].login).value.login).value)
  {
    if |orgs| == 0 then SeedRun([], Aborted(RegisterHook, UndefinedFirst))
    else
      match api.createHook(orgs[0].login)
      case Rejected(e) => SeedRun([], Aborted(RegisterHook, RequestFailed(e)))
      case Ok(_) =>
        match api.getOrg(orgs[0].login)
        case Rejected(e) => SeedRun([], Aborted(FetchOrg, RequestFailed(e)))
        case Ok(org) =>
          match api.listMembers(org.login)
          case Rejected(e) => SeedRun([], Aborted(FetchMembers, RequestFailed(e)))
          case Ok(members) => Prepend(MembersWrite(members), SeedRepos(api, org.login))
  }

  /** The writes the `token` handler performs on `s` and how it ends. */
  function Seed(s: Store, token: string, api: Api): (r: SeedRun)
    ensures Consistent(r)
    ensures r.status == Skipped <==> Truthy(s.token)
    ensures r.status == Skipped ==> r.writes == []
    ensures r.writes != [] ==> r.writes[0] == TokenWrite(token)
    ensures |r.writes| >= 2 ==> api.listOrgs.Ok? && r.writes[1] == OrgsWrite(api.listOrgs.value)
    ensures !Truthy(s.token) && api.listOrgs.Rejected? ==>
              r == SeedRun([TokenWrite(token)], Aborted(FetchOrgs, RequestFailed(api.listOrgs.error)))
  {
    if Truthy(s.token) then SeedRun([], Skipped)
    else
      Prepend(TokenWrite(token),
        match api.listOrgs
        case Rejected(e) => SeedRun([], Aborted(FetchOrgs, RequestFailed(e)))
        case Ok(orgs) => Prepend(OrgsWrite(orgs), SeedOrg(api, orgs)))
  }

  /** The store after a `token` event carrying `token`: unchanged when a truthy token is held, otherwise
      holding the new token, and never losing an entry. */
  function HandleToken(s: Store, token: string, api: Api): (r: Store)
    ensures Extends(s, r)
    ensures r.token == (if Truthy(s.token) then s.token else token)
  {
    var run := Seed(s, token, api);
    ApplyWritesContents(s, run.writes);
    OrderedWritesContents(s.token, run.writes);
    ApplyWrites(s, run.writes)
  }

  /** The store after a `push` event whose payload carries `commits`. */
  function HandlePush(s: Store, commits: seq<Commit>): (r: Store)
    ensures Extends(s, r)
    ensures r.commits[|s.commits|..] == commits
    ensures r.token == s.token && r.orgs == s.orgs && r.members == s.members && r.repos == s.repos
  {
    AppendCommits(s, commits)
  }

  /** The read routes `/github/orgs`, `/github/members`, `/github/repos`, `/github/commits`. */
  datatype Route = OrgsRoute | MembersRoute | ReposRoute | CommitsRoute

  /** The JSON body a read route answers with. */
  datatype Reply =
    | OrgsReply(orgs: seq<Org>)
    | MembersReply(members: seq<Member>)
    | ReposReply(repos: seq<Repo>)
    | CommitsReply(commits: seq<Commit>)

  function Get(s: Store, route: Route): (r: Reply)
    ensures route == OrgsRoute <==> r.OrgsReply?
    ensures route == MembersRoute <==> r.MembersReply?
    ensures route == ReposRoute <==> r.ReposReply?
    ensures route == CommitsRoute <==> r.CommitsReply?
    ensures r.OrgsReply? ==> r.orgs == s.orgs
    ensures r.MembersReply? ==> r.members == s.members
    ensures r.ReposReply? ==> r.repos == s.repos
    ensures r.CommitsReply? ==> r.commits == s.commits
  {
    match route
    case OrgsRoute => OrgsReply(s.orgs)
    case MembersRoute => MembersReply(s.members)
    case ReposRoute => ReposReply(s.repos)
    case CommitsRoute => CommitsReply(s.commits)
  }

  /** An event the server reacts to by changing the store. */
  datatype Event = Authorized(token: string, api: Api) | Pushed(commits: seq<Commit>)

  function Handle(s: Store, e: Event): (r: Store)
    ensures Extends(s, r)
    ensures r.token == (if Truthy(s.token) || e.Pushed? then s.token else e.token)
    ensures e.Pushed? ==> r == s.(commits := s.commits + e.commits)
  {
    match e
    case Authorized(token, api) => HandleToken(s, token, api)
    case Pushed(commits) => HandlePush(s, commits)
  }

  /** The store after the events `es`, each handled atomically, in order: nothing stored is ever removed
      or reordered, and a truthy token, once stored, stays. */
  function Replay(s: Store, es: seq<Event>): (r: Store)
    ensures Extends(s, r)
    ensures Truthy(s.token) ==> r.token == s.token
    decreases |es|
  {
    if es == [] then s
    else
      Replay(Handle(s, es[0]), es[1..])
  }
}
