/**
 * The title-and-content search over the stored listings: a filter on the
 * search word followed by a map to the list view, both in storage order.
 */
module ProjectSearch {
  import opened Text
  import opened Domain

  /** The list view of a listing: title, the two dates, and the recruit list. */
  datatype ProjectListDto = ProjectListDto(
    title: String,
    startDate: Date,
    endDate: Date,
    recruit: seq<Part>)

  /** The search predicate: the overview or the title contains the word. */
  predicate Matches(p: Project, word: String)
  {
    Contains(p.overview, word) || Contains(p.title, word)
  }

  /** The stream filter: the listings that match, in their order. */
  function Filter(projects: seq<Project>, word: String): (found: seq<Project>)
    ensures |found| <= |projects|
    ensures forall p :: p in found ==> p in projects && Matches(p, word)
  {
    if projects == [] then []
    else if Matches(projects[0], word) then [projects[0]] + Filter(projects[1..], word)
    else Filter(projects[1..], word)
  }

  function ToListDto(p: Project): ProjectListDto
  {
    ProjectListDto(p.title, p.startDate, p.endDate, p.recruit)
  }

  /** The stream map: the list view of each listing, position by position. */
  function ToListDtos(projects: seq<Project>): (views: seq<ProjectListDto>)
    ensures |views| == |projects|
    ensures forall k :: 0 <= k < |projects| ==>
              views[k].title == projects[k].title && views[k].startDate == projects[k].startDate &&
              views[k].endDate == projects[k].endDate && views[k].recruit == projects[k].recruit
  {
    if projects == [] then [] else [ToListDto(projects[0])] + ToListDtos(projects[1..])
  }

  /** findByTitleAndContent over the result of findAll. */
  function Search(all: seq<Project>, word: String): seq<ProjectListDto>
  {
    ToListDtos(Filter(all, word))
  }

  /** Every stored listing that matches is kept. */
  lemma {:induction false} FilterKeepsMatches(projects: seq<Project>, word: String, p: Project)
    requires p in projects && Matches(p, word)
    ensures p in Filter(projects, word)
  {
    if projects[0] != p {
      FilterKeepsMatches(projects[1..], word, p);
    }
  }

  /** The filter splits over concatenation, so it keeps the storage order. */
  lemma {:induction false} FilterAppend(a: seq<Project>, b: seq<Project>, word: String)
    ensures Filter(a + b, word) == Filter(a, word) + Filter(b, word)
  {
    if a == [] {
      assert a + b == b;
    } else {
      assert (a + b)[1..] == a[1..] + b;
      FilterAppend(a[1..], b, word);
    }
  }

  /** The filter keeps a listing exactly when it matches. */
  lemma FilterSingleton(p: Project, word: String)
    ensures Filter([p], word) == if Matches(p, word) then [p] else []
  {
  }

  /** When every listing matches, the filter keeps them all. */
  lemma {:induction false} FilterAllMatch(projects: seq<Project>, word: String)
    requires forall k :: 0 <= k < |projects| ==> Matches(projects[k], word)
    ensures Filter(projects, word) == projects
  {
    if projects != [] {
      FilterAllMatch(projects[1..], word);
    }
  }

  /** An empty search word matches every listing. */
  lemma EmptyWordMatchesAll(all: seq<Project>)
    ensures Filter(all, []) == all
    ensures |Search(all, [])| == |all|
  {
  }

  /**
   * The search result is exactly the list view of the matching listings:
   * a listing appears iff it matches, every entry carries its listing's
   * title, dates and recruit list unchanged, and there are no more entries
   * than stored listings.
   */
  lemma SearchResults(all: seq<Project>, word: String)
    ensures |Search(all, word)| == |Filter(all, word)| <= |all|
    ensures forall p :: p in Filter(all, word) <==> p in all && Matches(p, word)
    ensures forall k :: 0 <= k < |Search(all, word)| ==>
              Search(all, word)[k] == ToListDto(Filter(all, word)[k])
  {
  }

  /** The list view splits over concatenation as well. */
  lemma ToListDtosAppend(a: seq<Project>, b: seq<Project>)
    ensures ToListDtos(a + b) == ToListDtos(a) + ToListDtos(b)
  {
  }

  /**
   * Searching after one more listing is stored yields the earlier results,
   * followed by the new listing's view exactly when it matches.
   */
  lemma SearchAfterAppend(all: seq<Project>, p: Project, word: String)
    ensures Search(all + [p], word) ==
              Search(all, word) + (if Matches(p, word) then [ToListDto(p)] else [])
  {
    FilterAppend(all, [p], word);
    FilterSingleton(p, word);
    ToListDtosAppend(Filter(all, word), Filter([p], word));
    assert ToListDtos([p]) == [ToListDto(p)] by {
      assert [p][1..] == [];
    }
  }
}
