# Bridge listing and onboarding services, modelled in Dafny

This project models the service layer of the Bridge recruitment backend.

- **Listing service** (`ProjectService`) does three things:
  - creates a recruitment listing for the user with a given email;
  - deletes a listing, but only for its owner;
  - searches the listings by a word in their title or overview.
- **Onboarding service** (`UserService`) records a new user's name, fields of interest and profile.
- **Field conversion** (`UserFieldRequest.toEntity`) turns the submitted field names into Field entities.

Both services own their repositories as fields of a Dafny class:

- the project table is a `map` from id to `Project`, plus a `seq` holding the storage order;
- the user table is a `map` from id to `User`.

In Java both services share one `UserRepository`. In the model each service class holds its own copy of the user table, so a change made through one service is not seen by the other.

Entities are datatype values. Where the Java code mutates an entity in place, the model replaces the stored value. Examples are `registerName`, `updateProfile`, `Part.setProject` and `User.setProject`.

Exceptions are values:

- `Result` carries the failures the onboarding service throws. `EntityNotFound` is a lookup that found nothing. `IncorrectResultSize` is a single-result query that matched several rows.
- The listing service answers with an `HttpStatus`.
- A null request object is `Option.None`.

Files, one module each:

- `text.dfy`: `Text`, Java's `String.contains` as `Contains`, with its positional characterisation.
- `domain.dfy`: `Domain`, the entities, statuses and error kinds.
- `repositories.dfy`: `Repositories`, the repository queries `findByEmail` and `findByPlatformId` (both through one single-result query `FindBy`) and `findAll`, and the storage order after a delete.
- `user_field_request.dfy`: `UserFieldRequests`, `toEntity`.
- `project_search.dfy`: `ProjectSearch`, the pure filter-then-map of `findByTitleAndContent`.
- `project_service.dfy`: `ProjectServices`, the listing service class.
- `user_service.dfy`: `UserServices`, the onboarding service class.

Creating a listing answers with an HTTP status, not with the new listing's id. The version of the service exercised by the repository's test file returns the id; the model follows `ProjectService.java` as it stands.

## Model

| member | source | states |
|---|---|---|
| `Text.ContainsIffOccurs` | src/main/java/com/Bridge/bridge/service/ProjectService.java:102 | `Contains(s, w)` holds iff `w` occurs in `s` at some position, i.e. case-sensitive substring containment |
| `Text.EmptyWordContained` | src/main/java/com/Bridge/bridge/service/ProjectService.java:102 | the empty word is contained in every string |
| `Text.LongerWordNotContained` | src/main/java/com/Bridge/bridge/service/ProjectService.java:102 | a word longer than the text is never contained in it |
| `Text.ContainedInExtension` | src/main/java/com/Bridge/bridge/service/ProjectService.java:102 | a word contained in a text stays contained when the text is extended on either side |
| `Domain.HttpStatus.Code` | src/main/java/com/Bridge/bridge/service/ProjectService.java:52-85 | every status the service answers with has a code from 200 to 499, and a code below 300 (success) exactly for OK and ACCEPTED |
| `Repositories.FindBy` | src/main/java/com/Bridge/bridge/service/UserService.java:32-33 | a single-result query on one user column, used for `findByPlatformId` here and for `findByEmail` (ProjectService.java line 35): Missing iff no user has the value; Found only for the one user with it; Ambiguous iff two distinct users share it |
| `Repositories.FindAll` | src/main/java/com/Bridge/bridge/service/ProjectService.java:98 | findAll lists the stored projects, one per stored id, in storage order |
| `Repositories.FindAllAfterSave` | src/main/java/com/Bridge/bridge/service/ProjectService.java:50 | saving a project under a new id appends it to the end of findAll |
| `Repositories.WithoutId` | src/main/java/com/Bridge/bridge/service/ProjectService.java:77 | after a delete, the storage order holds exactly the other ids; it stays free of duplicates and does not grow |
| `Repositories.WithoutIdAppend` | src/main/java/com/Bridge/bridge/service/ProjectService.java:77 | deleting one row keeps the relative storage order of all the other rows |
| `UserFieldRequests.ToEntity` | src/main/java/com/Bridge/bridge/dto/request/UserFieldRequest.java:20-24 | toEntity returns as many fields as names; the i-th field has the i-th name and no owner yet; an empty list gives an empty list |
| `UserFieldRequests.ToEntityAppend` | src/main/java/com/Bridge/bridge/dto/request/UserFieldRequest.java:21-23 | the conversion is a per-element map: converting a concatenation concatenates the conversions |
| `UserFieldRequests.Names` | src/main/java/com/Bridge/bridge/dto/request/UserFieldRequest.java:21-23 | the inverse view: reads the names back from a field list, position by position |
| `UserFieldRequests.NamesOfToEntity` | src/main/java/com/Bridge/bridge/dto/request/UserFieldRequest.java:21-23 | names round-trip through toEntity, so no name is lost, reordered or altered |
| `UserFieldRequests.ToEntityInjective` | src/main/java/com/Bridge/bridge/dto/request/UserFieldRequest.java:21-23 | equal field lists come from equal name lists |
| `ProjectSearch.Filter` | src/main/java/com/Bridge/bridge/service/ProjectService.java:100-104 | the filter keeps only stored projects whose overview or title contains the word, and never more than were stored |
| `ProjectSearch.ToListDtos` | src/main/java/com/Bridge/bridge/service/ProjectService.java:106-114 | the i-th list view carries the i-th project's title, startDate, endDate and recruit list unchanged, one view per project |
| `ProjectSearch.FilterKeepsMatches` | src/main/java/com/Bridge/bridge/service/ProjectService.java:100-104 | every stored project that matches is kept by the filter |
| `ProjectSearch.FilterAppend` | src/main/java/com/Bridge/bridge/service/ProjectService.java:100-104 | the filter splits over concatenation, so the result keeps storage order |
| `ProjectSearch.FilterSingleton` | src/main/java/com/Bridge/bridge/service/ProjectService.java:101-103 | a single project is kept iff it matches |
| `ProjectSearch.FilterAllMatch` | src/main/java/com/Bridge/bridge/service/ProjectService.java:100-104 | when every project matches, the filter returns all of them unchanged |
| `ProjectSearch.EmptyWordMatchesAll` | src/main/java/com/Bridge/bridge/service/ProjectService.java:102 | the empty search word keeps every stored project, so the result has one entry per project |
| `ProjectSearch.SearchResults` | src/main/java/com/Bridge/bridge/service/ProjectService.java:98-116 | a project is in the filtered list iff it is stored and matches; the result is the list view of that list entry by entry, no longer than the store |
| `ProjectSearch.ToListDtosAppend` | src/main/java/com/Bridge/bridge/service/ProjectService.java:106-114 | the mapping to list views splits over concatenation |
| `ProjectSearch.SearchAfterAppend` | src/main/java/com/Bridge/bridge/service/ProjectService.java:98-116 | searching one more project gives the earlier results, followed by its view exactly when it matches |
| `ProjectServices.ToEntityOfPart` | src/main/java/com/Bridge/bridge/service/ProjectService.java:40 | one part per recruited role in the form, in form order, not yet attached to a listing |
| `ProjectServices.LinkParts` | src/main/java/com/Bridge/bridge/service/ProjectService.java:43-44 | every part gets the new listing as its back-reference; order and all other part data are kept |
| `ProjectServices.SearchAfterCreate` | src/main/java/com/Bridge/bridge/service/ProjectService.java:50-116 | after a listing is saved under a new id, a search returns the earlier results, followed by the new listing's view exactly when it matches |
| `ProjectServices.ProjectService.constructor` | src/main/java/com/Bridge/bridge/service/ProjectService.java:22-25 | the service starts over the given project table, storage order, user table and next identity, which must already satisfy its invariant; nothing is changed |
| `ProjectServices.ProjectService.CreateProject` | src/main/java/com/Bridge/bridge/service/ProjectService.java:32-58 | OK iff the email lookup finds exactly one user; NOT_ACCEPTABLE otherwise, with nothing stored; on OK a new id is stored at the end of storage order, owned by the looked-up user, with the form's data and its parts in order pointing back to the new id; the owner's project list gains the id; every stored listing keeps its parts linked |
| `ProjectServices.ProjectService.DeleteProject` | src/main/java/com/Bridge/bridge/service/ProjectService.java:66-89 | ACCEPTED and the listing is removed iff it exists, the user exists and owns it; BAD_REQUEST with nothing removed iff it is owned by someone else; NOT_FOUND with nothing removed iff the listing or the user is unknown or the listing has no owner; users never change |
| `ProjectServices.ProjectService.FindByTitleAndContent` | src/main/java/com/Bridge/bridge/service/ProjectService.java:96-117 | a read-only function: each result is the list view of a stored listing that matches; every matching stored listing's view appears; there are no more results than stored listings |
| `UserServices.UpdateFieldUser` | src/main/java/com/Bridge/bridge/service/UserService.java:56-57 | every new field gets the user as owner; order and names are kept |
| `UserServices.UserService.constructor` | src/main/java/com/Bridge/bridge/service/UserService.java:23-25 | the service starts over the given user table with its invariant established |
| `UserServices.UserService.SignUpName` | src/main/java/com/Bridge/bridge/service/UserService.java:30-37 | EntityNotFound with nothing changed iff no user has the platform id; a non-unique match fails and changes nothing; otherwise only that user's name changes, to the requested name, and its id is returned |
| `UserServices.UserService.SaveField` | src/main/java/com/Bridge/bridge/service/UserService.java:47-61 | null request: false, nothing changed; unknown user: EntityNotFound, nothing changed; otherwise true, and only that user changes: its old fields stay as a prefix, followed by one field per name in order, each owned by the user |
| `UserServices.UserService.SaveProfile` | src/main/java/com/Bridge/bridge/service/UserService.java:66-78 | null request: false, nothing changed; unknown user: EntityNotFound, nothing changed; otherwise true, and only that user's profile is replaced |
| `UserServices.UserService.SignUpInfo` | src/main/java/com/Bridge/bridge/service/UserService.java:39-42 | fails iff the user is unknown and at least one part of the form is non-null, and then nothing has changed; otherwise the fields are appended as saveField does and the profile is replaced as saveProfile does; a null field part does not stop the profile from being saved |

Every stored listing's parts point back to that listing, and no id appears twice in the storage order. Every stored user's id is its key, and every field on a user's list belongs to that user. These are class invariants (`Valid`) that every operation keeps.

## Left out

- `User` as given in `domain/User.java` does not declare `platformId`, `fields`, `registerName`, `updateProfile` or `setProject`, but `UserService` and `ProjectService` use them. The model adds `platformId` and `fields` to the `User` datatype. `registerName` sets the name. `updateProfile` replaces the profile.
- `User.setProject` is not declared in `User.java`, and its body is outside this model. It is modelled as appending the listing's id to the owner's `projects` list.
- `Part.java` is outside this model, so `Part.setProject` is assumed. It is modelled as setting the part's back-reference, and the saved listing's `recruit` list is the linked parts. The repository's test fixtures rely on this: they link the parts, then save the listing.
- `Field.updateFieldUser` (`Field.java` is outside this model) is modelled as setting the field's owner only. It does not add the field to the user's `fields` list, so the `addAll` in `saveField` adds each new field exactly once. If the Java method also added the field to the user's list, as `Part.setProject` is assumed to do for parts, every field would appear twice. `SaveField`'s "one field per name" would then not hold.
- `ProjectRequestDto.java`, `Field.java` and `UserProfileRequest.java` are outside this model. Their `toEntityOfProject`, `toEntityOfPart`, `Field(String)` constructor and `toEntity` are modelled as plain copies of the form's data. They are modelled as plain copies of the form's data.
- Dates are opaque instants. Parsing the form's date strings, and a parse failure inside `toEntityOfProject`, are not modelled. That failure would also end in NOT_ACCEPTABLE.
- Validation of the recruited category against its enumeration is not modelled. The category is kept as text.
- Null ids, null request objects where the source does not test for null, a null `fieldName` list, and listings with a null title or overview are not modelled. Each of these would raise a NullPointerException or IllegalArgumentException. Only the null checks the source makes (`saveField`, `saveProfile`) and the null user of `createProject` are modelled. A listing without an owner is modelled too: it appears in test fixtures and makes `deleteProject` answer NOT_FOUND.
- Listing ids come from a counter (`nextId`), standing for the database's identity column. The 64-bit width of `Long` ids is not modelled.
- Spring transactions, JPA cascades and lazy loading are not modelled. `deleteProject` removes the listing row and leaves the owner's `projects` list as it was, as the source does. For `signUpInfo`, rollback does not matter: a failure is proved to leave the user table unchanged. `UserService` is `@Transactional(readOnly = true)` at class level, and `signUpInfo` has no annotation of its own. It calls `saveField` and `saveProfile` on `this`, which bypasses their own `@Transactional`. Under Hibernate a read-only transaction is not flushed, so the changes `signUpInfo` makes may never reach the database. The model states the in-memory changes only.
- `System.out.println` logging is not modelled.
- `ProjectServices.ProjectService.FindByTitleAndContent`: its own contract states membership and the size bound only. Storage order is stated by `ProjectSearch.FilterAppend`, `ProjectSearch.SearchAfterAppend` and `ProjectServices.SearchAfterCreate`.
- Other listing operations are not modelled because the `ProjectService.java` modelled here has no implementation of them: apply, cancel, scrap, close, ranking, update and detail. The test file exercises a later version of the service that has them.
- The chat controller, the alarm service and the plain DTOs (`ProjectUpdateRequestDto`, `SearchWordResponseDto`) are outside this model.
- The user's other relation lists (`applyProjects`, `bookmarks`, `joinChats`, alarms) and `photo` play no part in these operations. Only `photo` is kept on the datatype.
