/**
 * The entities the listing and onboarding services work on, as values.
 * The services keep them in keyed stores and replace a stored value where
 * the source mutates the entity in place.
 */
module Domain {
  import opened Text

  type UserId = int
  type ProjectId = int

  datatype Option<+T> = None | Some(value: T)

  /** The exceptions the services raise, by the class the source throws. */
  datatype ServiceError =
    | EntityNotFound        // repository lookup by id or platform id found nothing
    | IncorrectResultSize   // a single-result repository query matched several rows

  datatype Result<+T> = Success(value: T) | Failure(error: ServiceError)

  /** The HTTP statuses the listing service answers with. */
  datatype HttpStatus = Ok | Accepted | BadRequest | NotFound | NotAcceptable
  {
    /** The numeric status code of the HTTP standard. */
    function Code(): (c: int)
      ensures 200 <= c < 500
      ensures (c < 300) == (this == Ok || this == Accepted)
    {
      match this
      case Ok => 200
      case Accepted => 202
      case BadRequest => 400
      case NotFound => 404
      case NotAcceptable => 406
    }
  }

  /** Dates are opaque instants; the services only copy them. */
  datatype Date = Date(instant: int)

  /** One role recruited by a listing; `project` is its back-reference. */
  datatype Part = Part(
    recruitPart: String,
    recruitNum: int,
    recruitSkill: seq<String>,
    requirement: String,
    project: Option<ProjectId>)

  /** A recruitment listing; `owner` is null only in test fixtures. */
  datatype Project = Project(
    title: String,
    overview: String,
    dueDate: Date,
    startDate: Date,
    endDate: Date,
    tagLimit: seq<String>,
    meetingWay: String,
    stage: String,
    owner: Option<UserId>,
    recruit: seq<Part>)

  /** A field of interest a user registers; `owner` is its back-reference. */
  datatype Field = Field(name: String, owner: Option<UserId>)

  datatype Profile = Profile(selfIntro: String, career: String)

  /** A user; `projects` are the listings the user created. */
  datatype User = User(
    id: UserId,
    platformId: String,
    name: String,
    email: String,
    photo: String,
    profile: Option<Profile>,
    projects: seq<ProjectId>,
    fields: seq<Field>)
}
