/** The sample deck of the swipe screen: fifty mentors built from fixed word
    lists by index arithmetic. */
module MentorData {
  import opened Text

  const Sectors := ["Technology", "Finance", "Healthcare", "Marketing", "Design", "Education", "Engineering", "Sales"]
  const Skills := ["Leadership", "Communication", "Data Analysis", "Project Management", "Coding", "Strategy", "UX Design", "Marketing"]
  const Languages := ["English", "Spanish", "French", "German", "Chinese", "Arabic"]
  const FirstNames := ["Alex", "Sarah", "Michael", "Emma", "David", "Sophia", "James", "Olivia", "Daniel", "Ava"]
  const LastNames := ["Smith", "Johnson", "Williams", "Brown", "Jones", "Garcia", "Miller", "Davis", "Rodriguez", "Martinez"]
  const Companies := ["TechCorp", "Google", "Microsoft", "Apple", "Amazon", "Meta", "Tesla", "Netflix"]
  const Availabilities := ["Weekdays", "Weekends", "Anytime"]

  const DeckSize := 50

  datatype SampleMentor = SampleMentor(
    id: string, name: string, avatar: string, photo: string, photos: seq<string>,
    sector: string, company: string, skills: seq<string>, experience: nat, bio: string,
    education: string, languages: seq<string>, hourlyRate: nat, availability: string, reviews: nat)

  function Photo(n: nat, size: string): string {
    "https://images.unsplash.com/photo-" + Decimal(n) + "?w=" + size + "&h=" + size + "&fit=crop"
  }

  function Bio(sector: string, years: nat): string {
    "Passionate " + ToLowerAscii(sector) + " professional with " + Decimal(years) +
    " years of experience in leading teams and delivering exceptional results."
  }

  // The fields of entry `i`, one function each.
  function MentorId(i: nat): string { "mentor-" + Decimal(i) }
  function MentorName(i: nat): string { FirstNames[i % 10] + " " + LastNames[i % 10] }
  function Photos(i: nat): seq<string> {
    [Photo(1500000000 + i, "600"), Photo(1500000100 + i, "600"), Photo(1500000200 + i, "600"), Photo(1500000300 + i, "600")]
  }
  function SectorAt(i: nat): string { Sectors[i % 8] }
  function CompanyAt(i: nat): string { Companies[i % 8] }
  function SkillsAt(i: nat): seq<string> {
    [Skills[i % 8], Skills[(i + 1) % 8], Skills[(i + 2) % 8], Skills[(i + 3) % 8]]
  }
  function LanguagesAt(i: nat): seq<string> { [Languages[i % 6], Languages[(i + 1) % 6]] }
  function ExperienceAt(i: nat): nat { 3 + i % 15 }
  function AvailabilityAt(i: nat): string { Availabilities[i % 3] }
  function RateAt(i: nat): nat { 50 + i % 100 }
  function ReviewsAt(i: nat): nat { 10 + i % 100 }

  /** The entry at index `i` of `generateSampleMentors()`. */
  function SampleMentorAt(i: nat): SampleMentor {
    SampleMentor(
      MentorId(i), MentorName(i),
      Photo(1500000000 + i, "200"), Photo(1500000000 + i, "600"), Photos(i),
      SectorAt(i), CompanyAt(i), SkillsAt(i), ExperienceAt(i),
      Bio(SectorAt(i), ExperienceAt(i)),
      "Master's Degree in Computer Science",
      LanguagesAt(i), RateAt(i), AvailabilityAt(i), ReviewsAt(i))
  }

  /** `generateSampleMentors()`. */
  function GenerateSampleMentors(): (r: seq<SampleMentor>)
    ensures |r| == DeckSize
  {
    seq(DeckSize, i requires 0 <= i < DeckSize => SampleMentorAt(i))
  }

  /** The ids `mentor-0`, `mentor-1`, … are all different. */
  lemma MentorIdsDistinct(i: nat, j: nat)
    requires i != j
    ensures MentorId(i) != MentorId(j)
  {
    var a, b := MentorId(i), MentorId(j);
    if a == b {
      assert a[7..] == Decimal(i) && b[7..] == Decimal(j);
      DecimalInjective(i, j);
    }
  }

  /** No two cards of the deck share an id. */
  lemma DeckIdsDistinct(i: nat, j: nat)
    requires i < j < DeckSize
    ensures GenerateSampleMentors()[i].id != GenerateSampleMentors()[j].id
  {
    MentorIdsDistinct(i, j);
  }

  lemma SkillNamesDistinct(p: nat, q: nat)
    requires p < q < |Skills|
    ensures Skills[p] != Skills[q]
  {
  }

  lemma LanguageNamesDistinct(p: nat, q: nat)
    requires p < q < |Languages|
    ensures Languages[p] != Languages[q]
  {
  }

  /** Fewer than eight consecutive indices fall on different places of a cycle of length 8. */
  lemma CyclicDistinct8(i: nat, j: nat, k: nat)
    requires j < k < 8
    ensures (i + j) % 8 != (i + k) % 8
  {
  }

  /** No mentor lists a skill or a language twice. */
  lemma NoRepeatedSkill(i: nat)
    ensures forall j, k :: 0 <= j < k < 4 ==> SkillsAt(i)[j] != SkillsAt(i)[k]
    ensures LanguagesAt(i)[0] != LanguagesAt(i)[1]
  {
    var ss := SkillsAt(i);
    forall j, k | 0 <= j < k < 4 ensures ss[j] != ss[k] {
      var x, y := (i + j) % 8, (i + k) % 8;
      assert ss[j] == Skills[x] && ss[k] == Skills[y];
      CyclicDistinct8(i, j, k);
      if x < y { SkillNamesDistinct(x, y); } else { SkillNamesDistinct(y, x); }
    }
    var x, y := i % 6, (i + 1) % 6;
    assert x != y;
    if x < y { LanguageNamesDistinct(x, y); } else { LanguageNamesDistinct(y, x); }
  }

  lemma {:induction false} ContainsInfix(a: string, b: string, c: string)
    ensures Contains(a + b + c, b)
  {
    if a == [] {
      assert (a + b + c)[..|b|] == b;
    } else {
      assert (a + b + c)[1..] == a[1..] + b + c;
      ContainsInfix(a[1..], b, c);
    }
  }

  /** Experience lies between 3 and 17 years and the bio quotes the same number;
      for the fifty entries the rate lies between 50 and 99; reviews between 10 and 109. */
  lemma ExperienceAndRate(i: nat)
    ensures 3 <= ExperienceAt(i) <= 17
    ensures Contains(Bio(SectorAt(i), ExperienceAt(i)), Decimal(ExperienceAt(i)))
    ensures i < DeckSize ==> 50 <= RateAt(i) <= 99
    ensures 10 <= ReviewsAt(i) <= 109
  {
    var prefix := "Passionate " + ToLowerAscii(SectorAt(i)) + " professional with ";
    var suffix := " years of experience in leading teams and delivering exceptional results.";
    ContainsInfix(prefix, Decimal(ExperienceAt(i)), suffix);
  }

  /** Sector and company repeat every 8 entries, availability every 3 and the
      name every 10. */
  lemma Periods(i: nat)
    ensures SectorAt(i + 8) == SectorAt(i) && CompanyAt(i + 8) == CompanyAt(i)
    ensures AvailabilityAt(i + 3) == AvailabilityAt(i)
    ensures MentorName(i + 10) == MentorName(i)
  {
    assert (i + 8) % 8 == i % 8;
    assert (i + 3) % 3 == i % 3;
    assert (i + 10) % 10 == i % 10;
  }
}
