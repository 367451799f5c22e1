/** The donation-centre search: a case-insensitive substring filter over a fixed
    list of centres. */
module FindCenter {
  import opened Text
  import opened Seqs

  /** A listed centre; `kind` is the source's `type` (Hospital, Donation Camp, Clinic). */
  datatype Center = Center(id: int, name: string, distance: string, open: string, kind: string, address: string)

  const MockCenters: seq<Center> := [
    Center(1, "University Medical Center", "0.5 km", "24/7", "Hospital", "123 College Ave"),
    Center(2, "Red Cross Campus Hub", "1.2 km", "9 AM - 5 PM", "Donation Camp", "Student Center, Block B"),
    Center(3, "City General Hospital", "3.5 km", "24/7", "Hospital", "45 Main St, Downtown"),
    Center(4, "Community Health Clinic", "5.0 km", "8 AM - 8 PM", "Clinic", "88 North Road")
  ]

  /** The listed centres have distinct ids and distinct names. */
  lemma MockCentersDistinct()
    ensures forall i, j :: 0 <= i < j < |MockCenters| ==>
              MockCenters[i].id != MockCenters[j].id && MockCenters[i].name != MockCenters[j].name
  {
  }

  /** The centre's lower-cased name or type includes the lower-cased search text. */
  predicate MatchesSearch(c: Center, search: string)
  {
    Contains(LowerCase(c.name), LowerCase(search)) || Contains(LowerCase(c.kind), LowerCase(search))
  }

  /** The search box's test, as a predicate on centres. */
  function Matcher(search: string): Center -> bool
  {
    (c: Center) => MatchesSearch(c, search)
  }

  /** The empty search text matches every centre. */
  lemma EmptySearchMatchesAll(centers: seq<Center>)
    ensures Filter(centers, Matcher("")) == centers
  {
    forall c | c in centers ensures Matcher("")(c) {
      assert Contains(LowerCase(c.name), LowerCase(""));
    }
    FilterAll(centers, Matcher(""));
  }

  /** The centres of `centers` that match `search`, in listed order. */
  function FilterCenters(centers: seq<Center>, search: string): (r: seq<Center>)
    ensures forall c :: c in r <==> c in centers && MatchesSearch(c, search)
    ensures IsSubsequence(r, centers)
    ensures search == "" ==> r == centers
  {
    EmptySearchMatchesAll(centers);
    Filter(centers, Matcher(search))
  }

  /** `filteredCenters` as the page computes it from its search box: the listed
      centres that match, in listed order, and all four for an empty box. */
  function FilteredCenters(search: string): (r: seq<Center>)
    ensures forall c :: c in r <==> c in MockCenters && MatchesSearch(c, search)
    ensures IsSubsequence(r, MockCenters)
    ensures search == "" ==> r == MockCenters
  {
    FilterCenters(MockCenters, search)
  }

  /** The search is insensitive to the letter case of the search text. */
  lemma SearchIgnoresCase(centers: seq<Center>, search: string)
    ensures FilterCenters(centers, LowerCase(search)) == FilterCenters(centers, search)
  {
    LowerCaseIdempotent(search);
    FilterCongruent(centers, Matcher(LowerCase(search)), Matcher(search));
  }
}
