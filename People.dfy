/**
 * The person tool handlers: search_person, which derives a "known for"
 * summary per person, and get_person_details, which joins a profile and a
 * filmography fetched by two requests in sequence.
 */
module People {
  import opened Wrappers
  import opened Types
  import opened Movies

  // ---------------------------------------------------------------------
  // Known-for summary
  // ---------------------------------------------------------------------

  /** What one known-for work contributes: its title, else its name, else nothing. */
  function ItemLabel(item: KnownForItem): seq<string> {
    if item.title != "" then [item.title] else if item.name != "" then [item.name] else []
  }

  /** The labels of `items`, in order; items with neither title nor name are skipped. */
  function Labels(items: seq<KnownForItem>): (r: seq<string>)
    ensures |r| <= |items|
    ensures forall i :: 0 <= i < |r| ==> r[i] != ""
  {
    if items == [] then [] else Labels(items[..|items| - 1]) + ItemLabel(items[|items| - 1])
  }

  /** `strings.Join`: the parts with `sep` between consecutive ones. */
  function Join(parts: seq<string>, sep: string): string {
    if |parts| == 0 then ""
    else if |parts| == 1 then parts[0]
    else Join(parts[..|parts| - 1], sep) + sep + parts[|parts| - 1]
  }

  /** The known-for works that count: the first three. */
  function LeadingWorks(p: UpstreamPerson): seq<KnownForItem> {
    p.knownFor[..Min(3, |p.knownFor|)]
  }

  /**
   * The known-for summary of a person: the department alone when none of
   * the leading works has a label, else "<department> (<l1>, <l2>, ...)".
   */
  function KnownForText(p: UpstreamPerson): string {
    var titles := Labels(LeadingWorks(p));
    if |titles| > 0 then p.knownForDepartment + " (" + Join(titles, ", ") + ")"
    else p.knownForDepartment
  }

  lemma {:induction false} LabelsAppend(a: seq<KnownForItem>, b: seq<KnownForItem>)
    ensures Labels(a + b) == Labels(a) + Labels(b)
    decreases |b|
  {
    if b == [] {
      assert a + b == a;
    } else {
      var b' := b[..|b| - 1];
      assert (a + b)[..|a + b| - 1] == a + b';
      LabelsAppend(a, b');
    }
  }

  /** When every work has a title, the labels are exactly the titles, in order. */
  lemma {:induction false} LabelsAreTitles(items: seq<KnownForItem>)
    requires forall i :: 0 <= i < |items| ==> items[i].title != ""
    ensures |Labels(items)| == |items|
    ensures forall i :: 0 <= i < |items| ==> Labels(items)[i] == items[i].title
  {
    if items != [] {
      LabelsAreTitles(items[..|items| - 1]);
    }
  }

  /** Works with neither a title nor a name contribute nothing. */
  lemma {:induction false} LabelsOfUnnamed(items: seq<KnownForItem>)
    requires forall i :: 0 <= i < |items| ==> items[i].title == "" && items[i].name == ""
    ensures Labels(items) == []
  {
    if items != [] {
      LabelsOfUnnamed(items[..|items| - 1]);
    }
  }

  /** The summary is the bare department exactly when no leading work has a label. */
  lemma KnownForIsDepartment(p: UpstreamPerson)
    ensures KnownForText(p) == p.knownForDepartment <==> Labels(LeadingWorks(p)) == []
  {
  }

  /** At most three labels are ever listed, and works after the third are never consulted. */
  lemma KnownForFromFirstThree(p: UpstreamPerson, more: seq<KnownForItem>)
    requires |p.knownFor| >= 3
    ensures |Labels(LeadingWorks(p))| <= 3
    ensures KnownForText(p.(knownFor := p.knownFor + more)) == KnownForText(p)
  {
    assert LeadingWorks(p.(knownFor := p.knownFor + more)) == LeadingWorks(p);
  }

  /** Derives a person's known-for summary from the first three known-for works. */
  method DeriveKnownFor(person: UpstreamPerson) returns (knownFor: string)
    ensures knownFor == KnownForText(person)
  {
    var knownForTitles: seq<string> := [];
    for i := 0 to |person.knownFor|
      invariant i <= 3
      invariant knownForTitles == Labels(person.knownFor[..i])
    {
      if i >= 3 {
        break;
      }
      var item := person.knownFor[i];
      assert person.knownFor[..i + 1][..i] == person.knownFor[..i];
      if item.title != "" {
        knownForTitles := knownForTitles + [item.title];
      } else if item.name != "" {
        knownForTitles := knownForTitles + [item.name];
      }
    }
    assert person.knownFor[..Min(3, |person.knownFor|)] == person.knownFor[..if |person.knownFor| < 3 then |person.knownFor| else 3];
    knownFor := person.knownForDepartment;
    if |knownForTitles| > 0 {
      knownFor := person.knownForDepartment + " (" + Join(knownForTitles, ", ") + ")";
    }
  }

  /** The caller-facing summary of one upstream person. */
  function ToPersonResult(p: UpstreamPerson): PersonResult {
    PersonResult(p.id, p.name, KnownForText(p), p.profilePath)
  }

  /** search_person: one summary per upstream person, in order; total counts them. */
  method SearchPerson(input: SearchPersonInput, reply: Result<seq<UpstreamPerson>, ClientError>)
    returns (calls: seq<ClientCall>, out: SearchPersonOutput, err: Option<HandlerError>)
    ensures calls == [SearchPeopleCall(input.query)]
    ensures reply.Failure? ==>
              err == Some(HandlerError("failed to search person", reply.error)) && out == ZeroSearchPersonOutput
    ensures reply.Success? ==>
              && err == None
              && |out.results| == |reply.value|
              && (forall i :: 0 <= i < |out.results| ==> out.results[i] == ToPersonResult(reply.value[i]))
              && out.total == |out.results|
  {
    calls := [SearchPeopleCall(input.query)];
    if reply.Failure? {
      return calls, ZeroSearchPersonOutput, Some(HandlerError("failed to search person", reply.error));
    }

    var people: seq<PersonResult> := [];
    for i := 0 to |reply.value|
      invariant |people| == i
      invariant forall j :: 0 <= j < i ==> people[j] == ToPersonResult(reply.value[j])
    {
      var person := reply.value[i];
      var knownForStr := DeriveKnownFor(person);
      people := people + [PersonResult(person.id, person.name, knownForStr, person.profilePath)];
    }
    out, err := SearchPersonOutput(people, |people|), None;
  }

  // ---------------------------------------------------------------------
  // Filmography
  // ---------------------------------------------------------------------

  /** The crew jobs a filmography keeps. */
  predicate IsListedJob(job: string) {
    job == "Director" || job == "Producer" || job == "Writer" || job == "Screenplay"
  }

  function CastEntry(c: CastCredit): MovieCredit {
    MovieCredit(c.id, c.title, c.character, "", c.releaseDate)
  }

  function CrewEntry(c: CrewCredit): MovieCredit {
    MovieCredit(c.id, c.title, "", c.job, c.releaseDate)
  }

  /** Every cast credit, in order. */
  function CastEntries(cast: seq<CastCredit>): (r: seq<MovieCredit>) {
    seq(|cast|, i requires 0 <= i < |cast| => CastEntry(cast[i]))
  }

  /** The crew credits with a listed job, in order. */
  function ListedCrew(crew: seq<CrewCredit>): (r: seq<MovieCredit>)
    ensures |r| <= |crew|
    ensures forall i :: 0 <= i < |r| ==> IsListedJob(r[i].job) && r[i].character == ""
  {
    if crew == [] then []
    else
      var last := crew[|crew| - 1];
      ListedCrew(crew[..|crew| - 1]) + (if IsListedJob(last.job) then [CrewEntry(last)] else [])
  }

  /** The whole filmography before truncation: the cast, then the listed crew. */
  function Filmography(credits: UpstreamCredits): seq<MovieCredit> {
    CastEntries(credits.cast) + ListedCrew(credits.crew)
  }

  /** A crew credit is in the filmography exactly when its job is a listed one. */
  lemma {:induction false} ListedCrewMembership(crew: seq<CrewCredit>, c: CrewCredit)
    ensures CrewEntry(c) in ListedCrew(crew) <==> c in crew && IsListedJob(c.job)
  {
    if crew != [] {
      var init, last := crew[..|crew| - 1], crew[|crew| - 1];
      assert crew == init + [last];
      ListedCrewMembership(init, c);
    }
  }

  /**
   * The filmography lists the cast first, each entry with its character and
   * no job, then the listed crew; no entry carries both a character and a job.
   */
  lemma FilmographyShape(credits: UpstreamCredits)
    ensures |Filmography(credits)| >= |credits.cast|
    ensures forall i :: 0 <= i < |credits.cast| ==>
              && Filmography(credits)[i].job == ""
              && Filmography(credits)[i].character == credits.cast[i].character
              && Filmography(credits)[i].id == credits.cast[i].id
    ensures Filmography(credits)[|credits.cast|..] == ListedCrew(credits.crew)
    ensures forall e :: e in Filmography(credits) ==> e.character == "" || e.job == ""
  {
  }

  /**
   * get_person_details: fetches the profile, then the movie credits; either
   * failure fails the whole call. The filmography is cut to its first 20 entries.
   */
  method GetPersonDetails(
    input: GetPersonDetailsInput,
    profileReply: Result<UpstreamPersonDetails, ClientError>,
    creditsReply: Result<UpstreamCredits, ClientError>)
    returns (calls: seq<ClientCall>, out: GetPersonDetailsOutput, err: Option<HandlerError>)
    ensures profileReply.Failure? ==>
              && calls == [PersonDetailsCall(input.personId)]
              && err == Some(HandlerError("failed to get person details", profileReply.error))
              && out == ZeroGetPersonDetailsOutput
    ensures profileReply.Success? ==>
              calls == [PersonDetailsCall(input.personId), PersonMovieCreditsCall(input.personId)]
    ensures profileReply.Success? && creditsReply.Failure? ==>
              && err == Some(HandlerError("failed to get person movie credits", creditsReply.error))
              && out == ZeroGetPersonDetailsOutput
    ensures profileReply.Success? && creditsReply.Success? ==>
              var p, d := profileReply.value, out.person;
              var all := Filmography(creditsReply.value);
              && err == None
              && d.id == p.id && d.name == p.name && d.biography == p.biography
              && d.birthday == p.birthday && d.deathday == p.deathday
              && d.knownFor == p.knownForDepartment && d.placeOfBirth == p.placeOfBirth
              && d.profilePath == p.profilePath
              && |d.movies| == Min(20, |all|)
              && d.movies == all[..|d.movies|]
  {
    calls := [PersonDetailsCall(input.personId)];
    if profileReply.Failure? {
      return calls, ZeroGetPersonDetailsOutput,
        Some(HandlerError("failed to get person details", profileReply.error));
    }
    var person := profileReply.value;

    calls := calls + [PersonMovieCreditsCall(input.personId)];
    if creditsReply.Failure? {
      return calls, ZeroGetPersonDetailsOutput,
        Some(HandlerError("failed to get person movie credits", creditsReply.error));
    }
    var credits := creditsReply.value;

    var movieCredits: seq<MovieCredit> := [];
    for i := 0 to |credits.cast|
      invariant |movieCredits| == i
      invariant forall j :: 0 <= j < i ==> movieCredits[j] == CastEntry(credits.cast[j])
    {
      var cast := credits.cast[i];
      movieCredits := movieCredits + [MovieCredit(cast.id, cast.title, cast.character, "", cast.releaseDate)];
    }
    assert movieCredits == CastEntries(credits.cast);

    for i := 0 to |credits.crew|
      invariant movieCredits == CastEntries(credits.cast) + ListedCrew(credits.crew[..i])
    {
      var crew := credits.crew[i];
      assert credits.crew[..i + 1][..i] == credits.crew[..i];
      if crew.job == "Director" || crew.job == "Producer" || crew.job == "Writer" || crew.job == "Screenplay" {
        movieCredits := movieCredits + [MovieCredit(crew.id, crew.title, "", crew.job, crew.releaseDate)];
      }
    }
    assert credits.crew[..|credits.crew|] == credits.crew;

    if |movieCredits| > 20 {
      movieCredits := movieCredits[..20];
    }

    var details := PersonDetails(
      person.id, person.name, person.biography, person.birthday, person.deathday,
      person.knownForDepartment, person.placeOfBirth, person.profilePath, movieCredits);
    out, err := GetPersonDetailsOutput(details), None;
  }
}
