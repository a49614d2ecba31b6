/**
 The records the mirror stores and the responses of the remote API.

 The store itself keeps untyped arrays; the records below give each entry the
 shape the front end reads (an organization, a commit with its author and
 committer signatures) plus the fields the server dereferences (`login`,
 `owner.login`, `name`).
 */
module Entities {

  datatype Option<+T> = None | Some(value: T)

  /** An organization as listed by `GET /user/orgs` or fetched by `GET /orgs/{org}`. */
  datatype Org = Org(
    id: int,
    nodeId: string,
    login: string,
    url: string,
    description: Option<string>,
    avatarUrl: string,
    reposUrl: string,
    membersUrl: string)

  /** A member as listed by `GET /orgs/{org}/members`. */
  datatype Member = Member(nodeId: string, login: string, avatarUrl: string)

  /** A repository as listed by `GET /orgs/{org}/repos`; `ownerLogin` is `owner.login`. */
  datatype Repo = Repo(nodeId: string, name: string, fullName: string, ownerLogin: string, url: string)

  /** A branch as listed by `GET /repos/{owner}/{repo}/branches`. */
  datatype Branch = Branch(name: string, headSha: string)

  /** The author or committer part of a commit; every field may be absent. */
  datatype Signature = Signature(name: Option<string>, email: Option<string>, date: Option<string>)

  datatype Commit = Commit(sha: string, url: string, message: string, author: Signature, committer: Signature)

  /** The failure an API request rejects with: the HTTP status of the reply. */
  datatype RequestError = RequestError(status: int)

  /** What one awaited request yields: its `data`, or a rejection. */
  datatype Response<+T> = Ok(value: T) | Rejected(error: RequestError)
}
