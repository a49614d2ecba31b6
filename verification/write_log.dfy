/**
 A log of assignments to the store, applied in order.

 The token handler assigns the token and then appends to the collections one
 after another. Recording those assignments as a list lets the order of the
 writes, and what an early stop leaves behind, be stated about the list; the
 store a handler leaves is the list applied in turn.
 */
module WriteLog {
  import opened Entities
  import opened InMemoryDB

  /** One assignment to the store made by a handler. */
  datatype Write =
    | TokenWrite(token: string)
    | OrgsWrite(orgs: seq<Org>)
    | MembersWrite(members: seq<Member>)
    | ReposWrite(repos: seq<Repo>)
    | CommitsWrite(commits: seq<Commit>)

  /** The position of each kind of write in the handler: token, orgs, members, repos, commits. */
  function Rank(w: Write): nat {
    match w
    case TokenWrite(_) => 0
    case OrgsWrite(_) => 1
    case MembersWrite(_) => 2
    case ReposWrite(_) => 3
    case CommitsWrite(_) => 4
  }

  /** The writes follow the handler's order with none skipped: the i-th write has rank i. */
  predicate InHandlerOrder(ws: seq<Write>) {
    forall i :: 0 <= i < |ws| ==> Rank(ws[i]) == i
  }

  /** The store after one write. */
  function ApplyWrite(s: Store, w: Write): Store {
    match w
    case TokenWrite(t) => SetToken(s, t)
    case OrgsWrite(os) => AppendOrgs(s, os)
    case MembersWrite(ms) => AppendMembers(s, ms)
    case ReposWrite(rs) => AppendRepos(s, rs)
    case CommitsWrite(cs) => AppendCommits(s, cs)
  }

  /** The store after every write of `ws`, first to last. */
  function ApplyWrites(s: Store, ws: seq<Write>): Store
    decreases |ws|
  {
    if ws == [] then s else ApplyWrites(ApplyWrite(s, ws[0]), ws[1..])
  }

  /*
   * What a write log adds, collection by collection, as an independent
   * reference for ApplyWrites.
   */

  function OrgsIn(ws: seq<Write>): seq<Org>
    decreases |ws|
  {
    if ws == [] then [] else (if ws[0].OrgsWrite? then ws[0].orgs else []) + OrgsIn(ws[1..])
  }

  function MembersIn(ws: seq<Write>): seq<Member>
    decreases |ws|
  {
    if ws == [] then [] else (if ws[0].MembersWrite? then ws[0].members else []) + MembersIn(ws[1..])
  }

  function ReposIn(ws: seq<Write>): seq<Repo>
    decreases |ws|
  {
    if ws == [] then [] else (if ws[0].ReposWrite? then ws[0].repos else []) + ReposIn(ws[1..])
  }

  function CommitsIn(ws: seq<Write>): seq<Commit>
    decreases |ws|
  {
    if ws == [] then [] else (if ws[0].CommitsWrite? then ws[0].commits else []) + CommitsIn(ws[1..])
  }

  /** The token after the log: the last one written, or `t` when none is. */
  function LastToken(t: string, ws: seq<Write>): string
    decreases |ws|
  {
    if ws == [] then t else LastToken(if ws[0].TokenWrite? then ws[0].token else t, ws[1..])
  }

  /*
   * ApplyWrites against the reference, one field at a time.
   */

  lemma {:induction false} ApplyWritesToken(s: Store, ws: seq<Write>)
    ensures ApplyWrites(s, ws).token == LastToken(s.token, ws)
    decreases |ws|
  {
    if ws != [] {
      ApplyWritesToken(ApplyWrite(s, ws[0]), ws[1..]);
    }
  }

  lemma {:induction false} ApplyWritesOrgs(s: Store, ws: seq<Write>)
    ensures ApplyWrites(s, ws).orgs == s.orgs + OrgsIn(ws)
    decreases |ws|
  {
    if ws == [] {
      assert s.orgs + [] == s.orgs;
    } else {
      var s1 := ApplyWrite(s, ws[0]);
      ApplyWritesOrgs(s1, ws[1..]);
      assert ApplyWrites(s, ws) == ApplyWrites(s1, ws[1..]);
      assert s1.orgs == s.orgs + (if ws[0].OrgsWrite? then ws[0].orgs else []);
      assert OrgsIn(ws) == (if ws[0].OrgsWrite? then ws[0].orgs else []) + OrgsIn(ws[1..]);
    }
  }

  lemma {:induction false} ApplyWritesMembers(s: Store, ws: seq<Write>)
    ensures ApplyWrites(s, ws).members == s.members + MembersIn(ws)
    decreases |ws|
  {
    if ws == [] {
      assert s.members + [] == s.members;
    } else {
      var s1 := ApplyWrite(s, ws[0]);
      ApplyWritesMembers(s1, ws[1..]);
      assert ApplyWrites(s, ws) == ApplyWrites(s1, ws[1..]);
      assert s1.members == s.members + (if ws[0].MembersWrite? then ws[0].members else []);
      assert MembersIn(ws) == (if ws[0].MembersWrite? then ws[0].members else []) + MembersIn(ws[1..]);
    }
  }

  lemma {:induction false} ApplyWritesRepos(s: Store, ws: seq<Write>)
    ensures ApplyWrites(s, ws).repos == s.repos + ReposIn(ws)
    decreases |ws|
  {
    if ws == [] {
      assert s.repos + [] == s.repos;
    } else {
      var s1 := ApplyWrite(s, ws[0]);
      ApplyWritesRepos(s1, ws[1..]);
      assert ApplyWrites(s, ws) == ApplyWrites(s1, ws[1..]);
      assert s1.repos == s.repos + (if ws[0].ReposWrite? then ws[0].repos else []);
      assert ReposIn(ws) == (if ws[0].ReposWrite? then ws[0].repos else []) + ReposIn(ws[1..]);
    }
  }

  lemma {:induction false} ApplyWritesCommits(s: Store, ws: seq<Write>)
    ensures ApplyWrites(s, ws).commits == s.commits + CommitsIn(ws)
    decreases |ws|
  {
    if ws == [] {
      assert s.commits + [] == s.commits;
    } else {
      var s1 := ApplyWrite(s, ws[0]);
      ApplyWritesCommits(s1, ws[1..]);
      assert ApplyWrites(s, ws) == ApplyWrites(s1, ws[1..]);
      assert s1.commits == s.commits + (if ws[0].CommitsWrite? then ws[0].commits else []);
      assert CommitsIn(ws) == (if ws[0].CommitsWrite? then ws[0].commits else []) + CommitsIn(ws[1..]);
    }
  }

  /** Applying a write log appends every batch of it, in log order, and leaves the last token written. */
  lemma ApplyWritesContents(s: Store, ws: seq<Write>)
    ensures ApplyWrites(s, ws)
         == Store(LastToken(s.token, ws), s.orgs + OrgsIn(ws), s.members + MembersIn(ws),
                  s.repos + ReposIn(ws), s.commits + CommitsIn(ws))
  {
    ApplyWritesToken(s, ws);
    ApplyWritesOrgs(s, ws);
    ApplyWritesMembers(s, ws);
    ApplyWritesRepos(s, ws);
    ApplyWritesCommits(s, ws);
  }

  /** No write log removes or reorders an entry already stored. */
  lemma ApplyWritesExtends(s: Store, ws: seq<Write>)
    ensures Extends(s, ApplyWrites(s, ws))
  {
    ApplyWritesContents(s, ws);
  }

  /*
   * A log in handler order, read from position `k` on: the batch of rank j is
   * in the suffix exactly when k <= j. One lemma per field.
   */

  lemma {:induction false} OrderedSuffixToken(t: string, ws: seq<Write>, k: nat)
    requires InHandlerOrder(ws)
    requires k <= |ws|
    ensures LastToken(t, ws[k..]) == (if k == 0 && |ws| >= 1 then ws[0].token else t)
    decreases |ws| - k
  {
    if k < |ws| {
      var w := ws[k];
      assert Rank(w) == k;
      assert ws[k..][0] == w && ws[k..][1..] == ws[k + 1..];
      OrderedSuffixToken(if w.TokenWrite? then w.token else t, ws, k + 1);
    }
  }

  lemma {:induction false} OrderedSuffixOrgs(ws: seq<Write>, k: nat)
    requires InHandlerOrder(ws)
    requires k <= |ws|
    ensures OrgsIn(ws[k..]) == (if k <= 1 < |ws| then ws[1].orgs else [])
    decreases |ws| - k
  {
    if k < |ws| {
      var w := ws[k];
      assert Rank(w) == k;
      assert ws[k..][0] == w && ws[k..][1..] == ws[k + 1..];
      OrderedSuffixOrgs(ws, k + 1);
      assert OrgsIn(ws[k..]) == (if w.OrgsWrite? then w.orgs else []) + OrgsIn(ws[k + 1..]);
    }
  }

  lemma {:induction false} OrderedSuffixMembers(ws: seq<Write>, k: nat)
    requires InHandlerOrder(ws)
    requires k <= |ws|
    ensures MembersIn(ws[k..]) == (if k <= 2 < |ws| then ws[2].members else [])
    decreases |ws| - k
  {
    if k < |ws| {
      var w := ws[k];
      assert Rank(w) == k;
      assert ws[k..][0] == w && ws[k..][1..] == ws[k + 1..];
      OrderedSuffixMembers(ws, k + 1);
      assert MembersIn(ws[k..]) == (if w.MembersWrite? then w.members else []) + MembersIn(ws[k + 1..]);
    }
  }

  lemma {:induction false} OrderedSuffixRepos(ws: seq<Write>, k: nat)
    requires InHandlerOrder(ws)
    requires k <= |ws|
    ensures ReposIn(ws[k..]) == (if k <= 3 < |ws| then ws[3].repos else [])
    decreases |ws| - k
  {
    if k < |ws| {
      var w := ws[k];
      assert Rank(w) == k;
      assert ws[k..][0] == w && ws[k..][1..] == ws[k + 1..];
      OrderedSuffixRepos(ws, k + 1);
      assert ReposIn(ws[k..]) == (if w.ReposWrite? then w.repos else []) + ReposIn(ws[k + 1..]);
    }
  }

  lemma {:induction false} OrderedSuffixCommits(ws: seq<Write>, k: nat)
    requires InHandlerOrder(ws)
    requires k <= |ws|
    ensures CommitsIn(ws[k..]) == (if k <= 4 < |ws| then ws[4].commits else [])
    decreases |ws| - k
  {
    if k < |ws| {
      var w := ws[k];
      assert Rank(w) == k;
      assert ws[k..][0] == w && ws[k..][1..] == ws[k + 1..];
      OrderedSuffixCommits(ws, k + 1);
      assert CommitsIn(ws[k..]) == (if w.CommitsWrite? then w.commits else []) + CommitsIn(ws[k + 1..]);
    }
  }

  /** A log in handler order holds at most one batch per collection, at the position of its rank. */
  lemma OrderedWritesContents(t: string, ws: seq<Write>)
    requires InHandlerOrder(ws)
    ensures LastToken(t, ws) == (if |ws| >= 1 then ws[0].token else t)
    ensures OrgsIn(ws) == (if |ws| >= 2 then ws[1].orgs else [])
    ensures MembersIn(ws) == (if |ws| >= 3 then ws[2].members else [])
    ensures ReposIn(ws) == (if |ws| >= 4 then ws[3].repos else [])
    ensures CommitsIn(ws) == (if |ws| >= 5 then ws[4].commits else [])
  {
    assert ws[0..] == ws;
    OrderedSuffixToken(t, ws, 0);
    OrderedSuffixOrgs(ws, 0);
    OrderedSuffixMembers(ws, 0);
    OrderedSuffixRepos(ws, 0);
    OrderedSuffixCommits(ws, 0);
  }

  /** Writes to different collections, or a token write and a collection write, commute: the store keeps
      no order across collections. */
  lemma WritesToDistinctCollectionsCommute(s: Store, w1: Write, w2: Write)
    requires Rank(w1) != Rank(w2)
    ensures ApplyWrite(ApplyWrite(s, w1), w2) == ApplyWrite(ApplyWrite(s, w2), w1)
  {
  }
}
