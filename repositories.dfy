/**
 * Repository queries over the keyed stores. A lookup by id is a map lookup;
 * a single-result query by another column finds nothing, exactly one row,
 * or several rows (which the persistence layer reports as an error).
 */
module Repositories {
  import opened Text
  import opened Domain

  datatype Lookup = Missing | Found(id: UserId) | Ambiguous

  /**
   * A single-result query on one column of the user table: no row, the
   * one row whose column holds `value`, or several rows.
   */
  function FindBy(users: map<UserId, User>, column: User -> String, value: String): (r: Lookup)
    ensures r == Missing <==> forall k :: k in users ==> column(users[k]) != value
    ensures r.Found? ==> r.id in users && column(users[r.id]) == value &&
                         forall k :: k in users && column(users[k]) == value ==> k == r.id
    ensures r == Ambiguous <==> exists k, k' :: k in users && k' in users && k != k' &&
                                               column(users[k]) == value && column(users[k']) == value
  {
    if exists k, k' :: k in users && k' in users && k != k' &&
                       column(users[k]) == value && column(users[k']) == value then
      Ambiguous
    else if exists k :: k in users && column(users[k]) == value then
      var k :| k in users && column(users[k]) == value;
      Found(k)
    else
      Missing
  }

  /** UserRepository.findByEmail. */
  function FindByEmail(users: map<UserId, User>, email: String): Lookup
  {
    FindBy(users, (u: User) => u.email, email)
  }

  /** UserRepository.findByPlatformId. */
  function FindByPlatformId(users: map<UserId, User>, platformId: String): Lookup
  {
    FindBy(users, (u: User) => u.platformId, platformId)
  }

  predicate Distinct(s: seq<ProjectId>)
  {
    forall i, j :: 0 <= i < j < |s| ==> s[i] != s[j]
  }

  /** The storage order once the row `id` is deleted. */
  function WithoutId(order: seq<ProjectId>, id: ProjectId): (r: seq<ProjectId>)
    ensures forall x :: x in r <==> x in order && x != id
    ensures |r| <= |order|
    ensures Distinct(order) ==> Distinct(r)
    ensures id !in order ==> r == order
  {
    if order == [] then []
    else if order[0] == id then WithoutId(order[1..], id)
    else
      var rest := WithoutId(order[1..], id);
      assert Distinct(order) ==> order[0] !in order[1..];
      [order[0]] + rest
  }

  /** ProjectRepository.findAll: the stored listings in storage order. */
  function FindAll(projects: map<ProjectId, Project>, order: seq<ProjectId>): (all: seq<Project>)
    requires forall i :: 0 <= i < |order| ==> order[i] in projects
    ensures |all| == |order|
    ensures forall i :: 0 <= i < |order| ==> all[i] == projects[order[i]]
  {
    if order == [] then [] else [projects[order[0]]] + FindAll(projects, order[1..])
  }

  /** Deleting a row keeps the storage order of all the other rows. */
  lemma {:induction false} WithoutIdAppend(a: seq<ProjectId>, b: seq<ProjectId>, id: ProjectId)
    ensures WithoutId(a + b, id) == WithoutId(a, id) + WithoutId(b, id)
  {
    if a == [] {
      assert a + b == b;
    } else {
      assert (a + b)[1..] == a[1..] + b;
      WithoutIdAppend(a[1..], b, id);
    }
  }

  /** Storing one more row under a new id appends it to findAll. */
  lemma FindAllAfterSave(projects: map<ProjectId, Project>, order: seq<ProjectId>,
                                            id: ProjectId, p: Project)
    requires forall i :: 0 <= i < |order| ==> order[i] in projects
    requires id !in order
    ensures FindAll(projects[id := p], order + [id]) == FindAll(projects, order) + [p]
  {
  }
}
