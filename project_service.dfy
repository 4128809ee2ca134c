/**
 * The listing service: creating a listing for the user with a given email,
 * deleting a listing on behalf of its owner, and the title-and-content
 * search. The project and user repositories are the fields of the service.
 */
module ProjectServices {
  import opened Text
  import opened Domain
  import opened Repositories
  import opened ProjectSearch

  /** One recruited role as the creation form describes it. */
  datatype PartRequest = PartRequest(
    recruitPart: String,
    recruitNum: int,
    recruitSkill: seq<String>,
    requirement: String)

  /** The listing creation form. */
  datatype ProjectRequest = ProjectRequest(
    userEmail: String,
    title: String,
    overview: String,
    dueDate: Date,
    startDate: Date,
    endDate: Date,
    recruit: seq<PartRequest>,
    tagLimit: seq<String>,
    meetingWay: String,
    stage: String)

  /** toEntityOfProject: the listing built from the form, owned by `owner`, no parts yet. */
  function ToEntityOfProject(request: ProjectRequest, owner: Option<UserId>): Project
  {
    Project(request.title, request.overview, request.dueDate, request.startDate, request.endDate,
            request.tagLimit, request.meetingWay, request.stage, owner, [])
  }

  function ToPart(request: PartRequest): Part
  {
    Part(request.recruitPart, request.recruitNum, request.recruitSkill, request.requirement, None)
  }

  /** toEntityOfPart: one unattached Part per recruited role, in form order. */
  function ToEntityOfPart(recruit: seq<PartRequest>): (parts: seq<Part>)
    ensures |parts| == |recruit|
    ensures forall i :: 0 <= i < |recruit| ==> parts[i] == ToPart(recruit[i])
  {
    if recruit == [] then [] else [ToPart(recruit[0])] + ToEntityOfPart(recruit[1..])
  }

  /** Every part of `p` refers back to the listing stored under `id`. */
  ghost predicate RecruitLinked(p: Project, id: ProjectId)
  {
    forall k :: 0 <= k < |p.recruit| ==> p.recruit[k].project == Some(id)
  }

  /**
   * The forEach that points every part at the new listing: the parts keep
   * their order and contents and gain the back-reference.
   */
  method LinkParts(recruit: seq<Part>, id: ProjectId) returns (linked: seq<Part>)
    ensures |linked| == |recruit|
    ensures forall k :: 0 <= k < |recruit| ==> linked[k] == recruit[k].(project := Some(id))
  {
    linked := [];
    var i := 0;
    while i < |recruit|
      invariant 0 <= i <= |recruit|
      invariant |linked| == i
      invariant forall k :: 0 <= k < i ==> linked[k] == recruit[k].(project := Some(id))
    {
      linked := linked + [recruit[i].(project := Some(id))];
      i := i + 1;
    }
  }

  /**
   * A listing saved under a new id shows up at the end of later searches
   * exactly when it matches the word; earlier results are unchanged.
   */
  lemma SearchAfterCreate(projects: map<ProjectId, Project>, order: seq<ProjectId>,
                          id: ProjectId, p: Project, word: String)
    requires forall i :: 0 <= i < |order| ==> order[i] in projects
    requires id !in order
    ensures Search(FindAll(projects[id := p], order + [id]), word) ==
              Search(FindAll(projects, order), word) + (if Matches(p, word) then [ToListDto(p)] else [])
  {
    FindAllAfterSave(projects, order, id, p);
    SearchAfterAppend(FindAll(projects, order), p, word);
  }

  class ProjectService {
    var projects: map<ProjectId, Project>
    var order: seq<ProjectId>           // storage order of the project table
    var users: map<UserId, User>
    var nextId: ProjectId               // the identity the next saved listing receives

    ghost predicate Valid()
      reads this
    {
      Distinct(order) &&
      (forall i :: 0 <= i < |order| ==> order[i] in projects) &&
      (forall id :: id in projects ==> id in order) &&
      (forall id :: id in projects ==> id < nextId) &&
      (forall k :: k in users ==> users[k].id == k) &&
      (forall id :: id in projects ==> RecruitLinked(projects[id], id))
    }

    /**
     * The service over repositories that may already hold listings: each
     * stored id once in the storage order, ids below the next identity, and
     * every listing's parts pointing back to it.
     */
    constructor (projects: map<ProjectId, Project>, order: seq<ProjectId>,
                 users: map<UserId, User>, nextId: ProjectId)
      requires Distinct(order)
      requires forall i :: 0 <= i < |order| ==> order[i] in projects
      requires forall id :: id in projects ==> id in order && id < nextId
      requires forall id :: id in projects ==> RecruitLinked(projects[id], id)
      requires forall k :: k in users ==> users[k].id == k
      ensures Valid()
      ensures this.projects == projects && this.order == order
      ensures this.users == users && this.nextId == nextId
    {
      this.projects := projects;
      this.order := order;
      this.users := users;
      this.nextId := nextId;
    }

    /**
     * createProject. The owner is looked up by email; a failing query, or a
     * missing owner (whose null reference fails at user.setProject, before
     * the save), turns into NotAcceptable with nothing stored. Otherwise the
     * listing is saved under a fresh id with every part pointing back to it,
     * and the owner records it among its listings.
     */
    method CreateProject(request: ProjectRequest) returns (status: HttpStatus)
      requires Valid()
      modifies this
      ensures Valid()
      ensures status == Ok || status == NotAcceptable
      ensures status == Ok <==> FindByEmail(old(users), request.userEmail).Found?
      ensures status == NotAcceptable ==>
                projects == old(projects) && order == old(order) && users == old(users)
      ensures status == Ok ==> old(nextId) in projects
      ensures status == Ok ==>
                var owner := FindByEmail(old(users), request.userEmail).id;
                var id := old(nextId);
                var stored := projects[id];
                id !in old(projects) &&
                projects == old(projects)[id := stored] &&
                order == old(order) + [id] &&
                owner in old(users) && old(users)[owner].email == request.userEmail &&
                stored == ToEntityOfProject(request, Some(owner)).(recruit := stored.recruit) &&
                |stored.recruit| == |request.recruit| &&
                (forall k :: 0 <= k < |request.recruit| ==>
                   stored.recruit[k] == ToPart(request.recruit[k]).(project := Some(id))) &&
                users == old(users)[owner := old(users)[owner].(projects := old(users)[owner].projects + [id])]
    {
      var found := FindByEmail(users, request.userEmail);
      if found == Ambiguous {
        // the single-result query itself throws
        return NotAcceptable;
      }
      var owner := if found.Found? then Some(found.id) else None;
      var newProject := ToEntityOfProject(request, owner);
      var recruit := ToEntityOfPart(request.recruit);
      var id := nextId;
      recruit := LinkParts(recruit, id);
      newProject := newProject.(recruit := recruit);
      if found == Missing {
        // user.setProject on a null user throws before anything is saved
        return NotAcceptable;
      }
      var user := users[found.id];
      users := users[found.id := user.(projects := user.projects + [id])];
      projects := projects[id := newProject];
      order := order + [id];
      nextId := nextId + 1;
      status := Ok;
    }

    /**
     * deleteProject. An unknown listing, an unknown user or a listing without
     * an owner fails a lookup and answers NotFound; a listing owned by the
     * requester is deleted (Accepted); one owned by someone else is kept
     * (BadRequest).
     */
    method DeleteProject(projectId: ProjectId, userId: UserId) returns (status: HttpStatus)
      requires Valid()
      modifies this
      ensures Valid()
      ensures users == old(users)
      ensures status == Accepted <==>
                projectId in old(projects) && userId in old(users) && old(projects)[projectId].owner == Some(userId)
      ensures status == BadRequest <==>
                projectId in old(projects) && userId in old(users) &&
                old(projects)[projectId].owner.Some? && old(projects)[projectId].owner != Some(userId)
      ensures status == NotFound <==>
                projectId !in old(projects) || userId !in old(users) || old(projects)[projectId].owner == None
      ensures status == Accepted ==>
                projectId !in projects && projects == old(projects) - {projectId} &&
                order == WithoutId(old(order), projectId)
      ensures status != Accepted ==> projects == old(projects) && order == old(order)
    {
      if projectId !in projects {
        return NotFound;
      }
      var project := projects[projectId];
      if userId !in users {
        return NotFound;
      }
      var user := users[userId];
      if project.owner == None {
        // project.getUser().getId() on a listing without an owner throws
        return NotFound;
      }
      if user.id == project.owner.value {
        projects := projects - {projectId};
        order := WithoutId(order, projectId);
        assert forall i :: 0 <= i < |order| ==> order[i] in order;
        return Accepted;
      }
      return BadRequest;
    }

    /**
     * findByTitleAndContent: the list views of the stored listings whose
     * overview or title contains the word, in storage order.
     */
    function FindByTitleAndContent(searchWord: String): (r: seq<ProjectListDto>)
      reads this
      requires Valid()
      ensures |r| <= |order|
      ensures forall k :: 0 <= k < |r| ==>
                exists i :: 0 <= i < |order| && Matches(projects[order[i]], searchWord) &&
                            r[k] == ToListDto(projects[order[i]])
      ensures forall i :: 0 <= i < |order| && Matches(projects[order[i]], searchWord) ==>
                ToListDto(projects[order[i]]) in r
    {
      var all := FindAll(projects, order);
      SearchResults(all, searchWord);
      var r := Search(all, searchWord);
      assert forall k :: 0 <= k < |r| ==> Filter(all, searchWord)[k] in all;
      r
    }
  }
}
