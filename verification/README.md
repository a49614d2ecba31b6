# In-memory GitHub organization mirror

This project models the core of a small Express server that mirrors one
GitHub organization into memory. It covers two parts:

- `InMemoryDB`: a token plus four collections: organizations, members,
  repositories and commits. Assigning to a collection appends the batch to
  what is there (`concat`), so nothing is ever replaced or removed.
  Assigning to the token overwrites it.
- The server's handlers, written as transitions of that store:
  - The OAuth `token` handler is a one-shot seed. It is guarded by the
    truthiness of the stored token. It stores the new token and then appends
    the organizations, the first organization's members, its repositories,
    and the commits of the first branch of the first repository.
  - The `push` webhook appends the payload's commits.
  - The four `GET /github/...` routes return the current collections.

The store is an immutable `Store` value and every handler is a pure function.
Each remote request is an input: the `Api` record holds one total function per
endpoint, and each function returns the response `data` or a rejection. The
seed returns the ordered list of store writes it made, plus how it ended:
skipped, completed, or aborted at a named step. This makes the handler's
write order and its partial state after an early stop statable.

Files:
- `entities.dfy`: the records that are stored, and the response type.
- `in_memory_db.dfy`: the store, its setters, and facts about appending.
- `write_log.dfy`: an ordered log of store writes, applying it, and what it adds to each collection.
- `server.dfy`: the token, push and read handlers, and the event replay.
- `server_properties.dfy`: lemmas about seeds, pushes, routes and event sequences.

What the code does not do, and the model does not either:
- It does not upsert or deduplicate. Every collection assignment appends.
- It handles no delete events and no member or repository events. The only event is `push`.
- It does not diff branches. It reads the commits of the first listed branch of the first listed repository only.
- It does not isolate failures. It awaits each request in turn, and the first failure ends the handler.
- Its replay guard tests only the truthiness of the stored token. A token event carrying `''` leaves the guard open.

## Model

| member | source | states |
|---|---|---|
| InMemoryDB.Empty | api/src/in-memory-db.ts:2-7 | a new store holds the falsy token `''` and no entries in any collection |
| InMemoryDB.Concat | api/src/in-memory-db.ts:32 | `concat` keeps the old array as a prefix, places the batch right after it, and grows by exactly the batch length |
| InMemoryDB.SetToken | api/src/in-memory-db.ts:11-17 | the token becomes the given value unconditionally; the four collections are untouched |
| InMemoryDB.AppendRepos | api/src/in-memory-db.ts:31-33 | old repositories stay a prefix, the batch follows them, length grows by the batch size, and the token and other collections are unchanged |
| InMemoryDB.AppendOrgs | api/src/in-memory-db.ts:35-37 | old organizations stay a prefix, the batch follows them, length grows by the batch size, and everything else is unchanged |
| InMemoryDB.AppendMembers | api/src/in-memory-db.ts:43-45 | old members stay a prefix, the batch follows them, length grows by the batch size, and everything else is unchanged |
| InMemoryDB.AppendCommits | api/src/in-memory-db.ts:51-53 | old commits stay a prefix, the batch follows them, length grows by the batch size, and everything else is unchanged |
| InMemoryDB.TokenLastWriteWins | api/src/in-memory-db.ts:11-17 | after two token assignments the getter returns the second, whatever the first was |
| InMemoryDB.AppendsExtend | api/src/in-memory-db.ts:31-53 | every collection setter extends the store and grows its total size by exactly the batch length; no collection shrinks |
| InMemoryDB.ConcatKeepsDuplicates | api/src/in-memory-db.ts:32 | concatenating the same batch twice holds each of its elements twice more than before |
| InMemoryDB.CommitsNotDeduplicated | api/src/in-memory-db.ts:51-53 | assigning the same commits twice stores each of them twice: there is no deduplication |
| Server.SeedCommits | api/src/server.ts:85-91 | the last stage completes exactly when there is a first branch and its commit listing succeeds; it then writes exactly that listing; an empty branch list aborts at the commit request; its one write is the fifth of the seed |
| Server.SeedRepos | api/src/server.ts:74-83 | a rejected repository listing aborts at that request; an empty listing aborts at the branch request; a rejected branch listing aborts there with no write; repositories are written only after the listing succeeded, was non-empty, and the first repository's branch listing succeeded, and they are the listing itself; its writes take the fourth and fifth places of the seed, and it completes exactly when both are made |
| Server.SeedOrg | api/src/server.ts:45-72 | an empty organization list aborts at the hook registration; a rejected hook registration, organization fetch or member listing aborts at that request with no write; a members write happens only after the hook was registered and the first organization was fetched, and it carries that organization's member listing; its writes take the third to fifth places of the seed in handler order |
| Server.Seed | api/src/server.ts:36-92 | the seed is skipped exactly when a truthy token is stored; otherwise its writes follow the order token, orgs, members, repos, commits with none skipped; it completes exactly when all five were made; an abort at a step leaves exactly the writes made before it; the first write is the token and the second the organization listing; a rejected organization listing leaves only the token write |
| Server.HandleToken | api/src/server.ts:36-92 | a token event never removes or reorders a stored entry; the token stays when a truthy one is held and otherwise becomes the event's token, however far the seed gets |
| Server.HandlePush | api/src/server.ts:94-97 | a push extends the store, appends exactly the payload's commits, and leaves the token and the other collections alone |
| Server.Get | api/src/server.ts:99-128 | each read route answers with its own collection, exactly as stored |
| Server.Handle | api/src/server.ts:36-97 | one token or push event never removes a stored entry; only a token event arriving while the stored token is falsy changes the token; a push, whatever the token, appends exactly its payload to the commits and changes nothing else |
| Server.Replay | api/src/server.ts:36-97 | under any sequence of token and push events, every collection keeps its earlier contents as a prefix, and a truthy stored token never changes |
| WriteLog.ApplyWritesContents | api/src/in-memory-db.ts:11-53 | applying a write log yields the last token written and every collection followed by all its batches in log order |
| WriteLog.ApplyWritesExtends | api/src/in-memory-db.ts:31-53 | no sequence of store writes removes or reorders a stored entry |
| WriteLog.OrderedSuffixToken | api/src/server.ts:39 | in a log written in handler order, a suffix ends with the token written first only when it starts at the first write; otherwise the token is unchanged |
| WriteLog.OrderedSuffixOrgs | api/src/server.ts:39-44 | in a log written in handler order, a suffix holds the organization batch exactly when it starts at or before the second write |
| WriteLog.OrderedSuffixMembers | api/src/server.ts:60-72 | in a log written in handler order, a suffix holds the member batch exactly when it starts at or before the third write |
| WriteLog.OrderedSuffixRepos | api/src/server.ts:74-83 | in a log written in handler order, a suffix holds the repository batch exactly when it starts at or before the fourth write |
| WriteLog.OrderedSuffixCommits | api/src/server.ts:85-91 | in a log written in handler order, a suffix holds the commit batch exactly when it starts at or before the fifth write |
| WriteLog.OrderedWritesContents | api/src/server.ts:39-91 | a log written in handler order holds at most one batch per collection, at the position given by the handler's order |
| WriteLog.WritesToDistinctCollectionsCommute | api/src/in-memory-db.ts:11-53 | any two writes to different fields of the store (two collections, or the token and a collection) give the same store in either order |
| ServerProperties.HandleTokenFromLog | api/src/server.ts:36-92 | the store a token event leaves is the old store with the token replaced by the seed's first write, if any, and each collection extended by the batch at that collection's position in the seed's writes, if the seed got that far |
| ServerProperties.SeedDependsOnlyOnToken | api/src/server.ts:37 | the seed reads nothing of the store except the token |
| ServerProperties.TokenHeldSkipsSeed | api/src/server.ts:37 | with a truthy token stored, a token event leaves the whole store unchanged |
| ServerProperties.SeedAtMostOnce | api/src/server.ts:37-39 | once a truthy token was handed over, every later token event is a no-op |
| ServerProperties.EmptyTokenLeavesGuardOpen | api/src/server.ts:37-39 | a token event carrying `''` leaves the guard falsy, so the next token event seeds again |
| ServerProperties.SeedCompletedStore | api/src/server.ts:39-91 | a completed seed had every request succeed (including the hook registration) on non-empty organization, repository and branch lists; it sets the token and appends, in order, the organization listing, the first organization's members, its repositories, and only the commits of the first branch of the first repository |
| ServerProperties.SeedCompletesOnSuccess | api/src/server.ts:39-91 | conversely, when no token is held, every request succeeds and the three lists are non-empty, the seed completes and stores exactly those responses, with only the first branch's commits of the first repository |
| ServerProperties.SeedAbortedKeepsPartialState | api/src/server.ts:39-91 | an aborted seed keeps the token and, depending on the failing step, the organizations, members and repositories already written; it never stores a commit |
| ServerProperties.EmptyOrgsAbortSeed | api/src/server.ts:41-46 | an empty organization list aborts at the hook registration, with only the token changed |
| ServerProperties.RejectedHookAbortsSeed | api/src/server.ts:41-58 | a rejected hook registration aborts the seed with the token and organizations stored and no member, repository or commit |
| ServerProperties.EmptyReposAbortSeed | api/src/server.ts:74-81 | an empty repository list aborts at the branch request; organizations and members persist and no repository is written |
| ServerProperties.RejectedBranchesAbortSeed | api/src/server.ts:74-83 | a rejected branch listing aborts the seed before the repositories are written; organizations and members persist |
| ServerProperties.EmptyBranchesAbortSeed | api/src/server.ts:78-91 | an empty branch list aborts at the commit request after the repositories were appended, with no commit stored |
| ServerProperties.EmptyTokenReseedDuplicates | api/src/server.ts:36-92 | two token events carrying `''` replayed on a store whose seed completes: the first leaves the guard open, the second seeds again, and every collection holds its seeded batch twice |
| ServerProperties.PushRedeliveryDuplicates | api/src/server.ts:94-97 | a redelivered push appends its commits a second time |
| ServerProperties.RoutesAfterPush | api/src/server.ts:94-128 | after a push, the commits route answers the previous answer followed by the payload, and the other routes answer as before |
| ServerProperties.HandleAppendsPushedCommits | api/src/server.ts:36-97 | a push under any token, and any event while a truthy token is stored, appends only the commits it pushes |
| ServerProperties.ReplayAppendsPushedCommits | api/src/server.ts:36-97 | with a truthy token stored, or with only pushes arriving, any event sequence changes only the commits, which grow by the pushed commits in arrival order |
| ServerProperties.ReplayConcat | api/src/server.ts:36-97 | handling two runs of events one after the other gives the same store as handling them joined: each event is handled on the store the previous one left |
| ServerProperties.ServerSeedsOnce | api/src/server.ts:36-97 | from any store, pushes followed by a truthy token: the pushes only append their commits and do not change what the seed does, the token event seeds on the store they left, and every later event only appends pushed commits to the seeded store |

## Left out

- The `user` getter and setter (api/src/in-memory-db.ts:19-25): each calls itself without end, and nothing uses them.
- The `/github/profile` route, the Express, CORS, Smee and dotenv set-up, and the OAuth and webhook middleware: these are network plumbing and never touch the store.
- The webhook registration request (`POST /orgs/{org}/hooks`) and its fixed configuration. The model keeps only whether that request succeeded, because a failure ends the seed.
- The `GET /orgs/{org}` request is modelled only for the login it yields. Members and repositories are requested with that login.
- Logging of the push payload (`console.log`) is left out.
- What the OAuth library or Node does with a rejected handler is left out. The model records where the seed stopped, and the store keeps what was already written.
- Interleaving between the awaits of one seed is left out. In the source, a push can land between two awaits of the seed. The model handles each event atomically, and `Replay` interleaves whole events only.
- `concat` flattening of non-array arguments is left out. Every batch is a sequence.
- Raw payload shapes are simplified. The source stores whatever objects the API returns, untyped. The model gives each collection one record type. Push-payload commits reuse the commit record of the commit listing, though GitHub shapes them differently.
- Reference aliasing is left out. The getters return the live array, and the model returns a value.
- The front end (`front/src/`) is left out. It is a React UI that fetches the read routes.
- Server.Get: the contract says each route answers with its collection. It does not model JSON wrapping (`{ orgs: [...] }`) or the HTTP response.
