/**
 The in-memory mirror: a token and four append-only collections.

 Every collection "setter" of the store appends the assigned batch to what is
 already there, so assignment never removes or replaces an entry; the token
 setter overwrites. The model is an immutable value and each setter a pure
 function returning the next store.
 */
module InMemoryDB {
  import opened Entities

  datatype Store = Store(
    token: string,
    orgs: seq<Org>,
    members: seq<Member>,
    repos: seq<Repo>,
    commits: seq<Commit>)

  /** JavaScript truthiness of a string: only the empty string is falsy. */
  predicate Truthy(t: string) {
    |t| > 0
  }

  /** Total number of entries held in the four collections. */
  function Size(s: Store): nat {
    |s.orgs| + |s.members| + |s.repos| + |s.commits|
  }

  /** The store a new server starts with. */
  function Empty(): (s: Store)
    ensures !Truthy(s.token)
    ensures Size(s) == 0
  {
    Store("", [], [], [], [])
  }

  /** `Array.prototype.concat` applied to an array argument: the old entries, then the batch. */
  function Concat<T>(xs: seq<T>, batch: seq<T>): (r: seq<T>)
    ensures |r| == |xs| + |batch|
    ensures xs <= r
    ensures r[|xs|..] == batch
  {
    xs + batch
  }

  /** `xs` appended to itself is `xs` twice: concat never drops a repeated entry. */
  lemma ConcatKeepsDuplicates<T>(xs: seq<T>, batch: seq<T>)
    ensures multiset(Concat(Concat(xs, batch), batch)) == multiset(xs) + multiset(batch) + multiset(batch)
  {
    assert Concat(Concat(xs, batch), batch) == xs + batch + batch;
  }

  /** Every collection of `s` is a prefix of the same collection of `t`. */
  predicate Extends(s: Store, t: Store) {
    && s.orgs <= t.orgs
    && s.members <= t.members
    && s.repos <= t.repos
    && s.commits <= t.commits
  }

  function SetToken(s: Store, token: string): (r: Store)
    ensures r.token == token
    ensures r.orgs == s.orgs && r.members == s.members && r.repos == s.repos && r.commits == s.commits
  {
    s.(token := token)
  }

  function AppendRepos(s: Store, batch: seq<Repo>): (r: Store)
    ensures s.repos <= r.repos && r.repos[|s.repos|..] == batch
    ensures |r.repos| == |s.repos| + |batch|
    ensures r.token == s.token && r.orgs == s.orgs && r.members == s.members && r.commits == s.commits
  {
    s.(repos := Concat(s.repos, batch))
  }

  function AppendOrgs(s: Store, batch: seq<Org>): (r: Store)
    ensures s.orgs <= r.orgs && r.orgs[|s.orgs|..] == batch
    ensures |r.orgs| == |s.orgs| + |batch|
    ensures r.token == s.token && r.members == s.members && r.repos == s.repos && r.commits == s.commits
  {
    s.(orgs := Concat(s.orgs, batch))
  }

  function AppendMembers(s: Store, batch: seq<Member>): (r: Store)
    ensures s.members <= r.members && r.members[|s.members|..] == batch
    ensures |r.members| == |s.members| + |batch|
    ensures r.token == s.token && r.orgs == s.orgs && r.repos == s.repos && r.commits == s.commits
  {
    s.(members := Concat(s.members, batch))
  }

  function AppendCommits(s: Store, batch: seq<Commit>): (r: Store)
    ensures s.commits <= r.commits && r.commits[|s.commits|..] == batch
    ensures |r.commits| == |s.commits| + |batch|
    ensures r.token == s.token && r.orgs == s.orgs && r.members == s.members && r.repos == s.repos
  {
    s.(commits := Concat(s.commits, batch))
  }

  /** The token getter returns the last value set, whatever was stored before. */
  lemma TokenLastWriteWins(s: Store, a: string, b: string)
    ensures SetToken(SetToken(s, a), b) == SetToken(s, b)
  {
  }

  /** Appending grows the store by exactly the batch and never shrinks it. */
  lemma AppendsExtend(s: Store, os: seq<Org>, ms: seq<Member>, rs: seq<Repo>, cs: seq<Commit>)
    ensures Extends(s, AppendOrgs(s, os)) && Size(AppendOrgs(s, os)) == Size(s) + |os|
    ensures Extends(s, AppendMembers(s, ms)) && Size(AppendMembers(s, ms)) == Size(s) + |ms|
    ensures Extends(s, AppendRepos(s, rs)) && Size(AppendRepos(s, rs)) == Size(s) + |rs|
    ensures Extends(s, AppendCommits(s, cs)) && Size(AppendCommits(s, cs)) == Size(s) + |cs|
  {
  }

  /** Appending the same batch of commits twice stores every commit of it twice. */
  lemma CommitsNotDeduplicated(s: Store, batch: seq<Commit>)
    ensures multiset(AppendCommits(AppendCommits(s, batch), batch).commits)
         == multiset(s.commits) + multiset(batch) + multiset(batch)
  {
    ConcatKeepsDuplicates(s.commits, batch);
  }
}
