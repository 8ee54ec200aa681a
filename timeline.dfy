/**
 * The experience section's timeline (src/components/sections/Experience.tsx):
 * work and education records mapped into one item type and merged newest
 * first. `year` stands for `getYear(stringToDate(d))` and `time` for
 * `toTime(stringToDate(d))`; both depend on the runtime's date parser.
 */
module Timeline {
  import opened Wrappers
  import opened Entities
  import opened JsString
  import opened StableSort

  datatype Category = Work | Schooling

  datatype TimelineItem = TimelineItem(
    id: Option<string>,
    category: Category,
    title: string,
    place: string,
    major: Option<string>,
    description: string,
    tags: seq<string>,
    icon: string,
    sortDate: int,
    period: string)

  /** `start - end`, both as years. */
  function Period(startingDate: string, endingDate: string, year: string -> string): string {
    year(startingDate) + " - " + year(endingDate)
  }

  /** `exp.icon || 'work'`: a missing or empty icon falls back to "work". */
  function WorkIcon(icon: Option<string>): (r: string)
    ensures r != ""
    ensures icon.Some? && icon.value != "" ==> r == icon.value
    ensures icon.None? || icon.value == "" ==> r == "work"
  {
    if icon.Some? && icon.value != "" then icon.value else "work"
  }

  function WorkItem(exp: Experience, year: string -> string, time: string -> int): (item: TimelineItem)
    ensures item.category == Work && item.id == exp.id
    ensures item.title == exp.role && item.place == exp.company && item.description == exp.responsibilities
    ensures item.tags == if exp.skills.Some? then exp.skills.value else []
    ensures item.icon == WorkIcon(exp.icon) && item.icon != ""
    ensures item.sortDate == time(exp.endingDate)
    ensures item.period == year(exp.startingDate) + " - " + year(exp.endingDate)
  {
    TimelineItem(exp.id, Work, exp.role, exp.company, None, exp.responsibilities,
      if exp.skills.Some? then exp.skills.value else [],
      WorkIcon(exp.icon), time(exp.endingDate),
      Period(exp.startingDate, exp.endingDate, year))
  }

  const GradePrefix: string := "Grade: "
  const TypePrefix: string := "Qualification Type: "

  /**
   * The education tags: the grade when there is one, then the qualification
   * type with its first '-' turned into a space when there is one.
   */
  function EduTags(grade: string, qualificationType: string): (tags: seq<string>)
    ensures |tags| == (if grade != "" then 1 else 0) + (if qualificationType != "" then 1 else 0)
    ensures grade != "" ==> tags[0] == GradePrefix + grade
    ensures qualificationType != "" ==> tags[|tags| - 1] == TypePrefix + ReplaceFirst(qualificationType, '-', ' ')
    ensures forall t :: t in tags ==> t != ""
    ensures GradePrefix + grade in tags <==> grade != ""
  {
    (if grade != "" then [GradePrefix + grade] else [])
    + (if qualificationType != "" then [TypePrefix + ReplaceFirst(qualificationType, '-', ' ')] else [])
  }

  function EduItem(edu: Education, year: string -> string, time: string -> int): (item: TimelineItem)
    ensures item.category == Schooling && item.id == edu.id && item.icon == "school"
    ensures item.title == edu.title && item.place == edu.institution
    ensures item.major == Some(edu.major) && item.description == edu.description
    ensures item.tags == EduTags(edu.grade, edu.qualificationType)
    ensures item.sortDate == time(edu.endingDate)
    ensures item.period == year(edu.startingDate) + " - " + year(edu.endingDate)
  {
    TimelineItem(edu.id, Schooling, edu.title, edu.institution, Some(edu.major), edu.description,
      EduTags(edu.grade, edu.qualificationType), "school", time(edu.endingDate),
      Period(edu.startingDate, edu.endingDate, year))
  }

  function WorkItems(exps: seq<Experience>, year: string -> string, time: string -> int): (r: seq<TimelineItem>)
    ensures |r| == |exps|
    ensures forall i :: 0 <= i < |exps| ==> r[i] == WorkItem(exps[i], year, time)
  {
    seq(|exps|, i requires 0 <= i < |exps| => WorkItem(exps[i], year, time))
  }

  function EduItems(edus: seq<Education>, year: string -> string, time: string -> int): (r: seq<TimelineItem>)
    ensures |r| == |edus|
    ensures forall i :: 0 <= i < |edus| ==> r[i] == EduItem(edus[i], year, time)
  {
    seq(|edus|, i requires 0 <= i < |edus| => EduItem(edus[i], year, time))
  }

  function SortKey(item: TimelineItem): int {
    item.sortDate
  }

  /** `timelineData`: work items, then education items, sorted by `sortDate`, latest first. */
  function TimelineData(exps: seq<Experience>, edus: seq<Education>, year: string -> string, time: string -> int): (r: seq<TimelineItem>)
    ensures |r| == |exps| + |edus|
    ensures SortedDesc(r, SortKey)
    ensures multiset(r) == multiset(WorkItems(exps, year, time) + EduItems(edus, year, time))
  {
    SortDesc(WorkItems(exps, year, time) + EduItems(edus, year, time), SortKey)
  }

  /** Every item comes from one experience or one education, and each of them has its item. */
  lemma TimelineMembership(exps: seq<Experience>, edus: seq<Education>, year: string -> string, time: string -> int, item: TimelineItem)
    ensures item in TimelineData(exps, edus, year, time) <==>
      (exists i :: 0 <= i < |exps| && item == WorkItem(exps[i], year, time))
      || (exists j :: 0 <= j < |edus| && item == EduItem(edus[j], year, time))
  {
    var works := WorkItems(exps, year, time);
    var schooling := EduItems(edus, year, time);
    var r := TimelineData(exps, edus, year, time);
    assert item in r <==> multiset(r)[item] > 0;
    assert item in works + schooling <==> multiset(works + schooling)[item] > 0;
    if item in works {
      var i :| 0 <= i < |works| && works[i] == item;
    }
    if item in schooling {
      var j :| 0 <= j < |schooling| && schooling[j] == item;
    }
  }

  /** The sort position depends on the ending date only, never on the starting date. */
  lemma SortDateIgnoresStart(exp: Experience, edu: Education, startingDate: string, year: string -> string, time: string -> int)
    ensures WorkItem(exp.(startingDate := startingDate), year, time).sortDate == WorkItem(exp, year, time).sortDate
    ensures EduItem(edu.(startingDate := startingDate), year, time).sortDate == EduItem(edu, year, time).sortDate
  {
  }

  /** Items with the same date keep their merged order: work before education, each in store order. */
  lemma TimelineKeepsOrderOfTies(exps: seq<Experience>, edus: seq<Education>, year: string -> string, time: string -> int, date: int)
    ensures WithKey(TimelineData(exps, edus, year, time), SortKey, date)
         == WithKey(WorkItems(exps, year, time) + EduItems(edus, year, time), SortKey, date)
  {
    SortDescStable(WorkItems(exps, year, time) + EduItems(edus, year, time), SortKey, date);
  }

  /** Only the first hyphen of a qualification type is replaced. */
  lemma TypeTagExample()
    ensures EduTags("", "a-b-c") == [TypePrefix + "a b-c"]
  {
    assert IndexOf("a-b-c", '-') == 1 by {
      assert "a-b-c"[1..] == "-b-c";
    }
    assert "a-b-c"[1 := ' '] == "a b-c";
  }
}
