/** The doctor directory: the fetched list, a name search and a specialty filter. Everything the
    page shows is a pure function of its four state fields. */
module DoctorsPage {
  import opened Wrappers
  import opened Text
  import opened Api

  /** The directory's state: fetched doctors, loading flag, search text, chosen specialty. */
  datatype DirectoryState = DirectoryState(
    doctors: seq<Doctor>,
    loading: bool,
    searchTerm: string,
    specialty: string)

  /** The state before the fetch resolves. */
  function Initial(): (st: DirectoryState)
    ensures st.doctors == [] && st.loading && st.searchTerm == "" && st.specialty == ""
  {
    DirectoryState([], true, "", "")
  }

  /** The fetch settles: on success the doctors are replaced; a failure is only logged, so the
      list stays as it was. Either way loading ends and the filters are untouched. */
  function Loaded(st: DirectoryState, reply: Result<seq<Doctor>>): (r: DirectoryState)
    ensures !r.loading
    ensures r.searchTerm == st.searchTerm && r.specialty == st.specialty
    ensures r.doctors == (if reply.Ok? then reply.value else st.doctors)
  {
    DirectoryState(if reply.Ok? then reply.value else st.doctors, false, st.searchTerm, st.specialty)
  }

  /** The name test: the lower-cased name includes the lower-cased search text. */
  predicate MatchesName(d: Doctor, searchTerm: string) {
    Contains(ToLower(d.name), ToLower(searchTerm))
  }

  /** The specialty test: an empty choice (falsy in JavaScript) passes every doctor; otherwise
      the lower-cased specialties must be equal. */
  predicate MatchesSpecialty(d: Doctor, specialty: string) {
    specialty != "" ==> ToLower(d.specialty) == ToLower(specialty)
  }

  /** Both tests. */
  predicate Matches(d: Doctor, searchTerm: string, specialty: string) {
    MatchesName(d, searchTerm) && MatchesSpecialty(d, specialty)
  }

  /** `a` is obtained from `b` by deleting elements, so `a` keeps `b`'s order. */
  predicate IsSubsequence<T(==)>(a: seq<T>, b: seq<T>)
    decreases |b|
  {
    a == [] || (b != [] && ((a[0] == b[0] && IsSubsequence(a[1..], b[1..])) || IsSubsequence(a, b[1..])))
  }

  /** `filteredDoctors`: the doctors that pass both tests, in fetched order. The result is an
      order-preserving subsequence of the input, every result passes both tests, and each
      doctor that passes occurs in the result exactly as often as in the input (a doctor that
      fails does not occur at all). */
  function FilterDoctors(doctors: seq<Doctor>, searchTerm: string, specialty: string): (r: seq<Doctor>)
    ensures IsSubsequence(r, doctors)
    ensures forall i :: 0 <= i < |r| ==> Matches(r[i], searchTerm, specialty)
    ensures forall d :: multiset(r)[d] == if Matches(d, searchTerm, specialty) then multiset(doctors)[d] else 0
    ensures forall d :: d in doctors && Matches(d, searchTerm, specialty) ==> d in r
  {
    if doctors == [] then []
    else
      var rest := FilterDoctors(doctors[1..], searchTerm, specialty);
      assert doctors == [doctors[0]] + doctors[1..];
      if Matches(doctors[0], searchTerm, specialty) then [doctors[0]] + rest else rest
  }

  /** The filter ignores letter case: a search text or a specialty choice that differs only in
      the case of its letters lists the same doctors. */
  lemma {:induction false} FilterIgnoresCase(doctors: seq<Doctor>, searchTerm: string, searchTerm': string,
                                             specialty: string, specialty': string)
    requires SameUpToCase(searchTerm, searchTerm') && SameUpToCase(specialty, specialty')
    ensures FilterDoctors(doctors, searchTerm, specialty) == FilterDoctors(doctors, searchTerm', specialty')
  {
    SameUpToCaseLowersEqual(searchTerm, searchTerm');
    SameUpToCaseLowersEqual(specialty, specialty');
    if doctors != [] {
      FilterIgnoresCase(doctors[1..], searchTerm, searchTerm', specialty, specialty');
    }
  }

  /** What the page lists for a state. */
  function Filtered(st: DirectoryState): seq<Doctor> {
    FilterDoctors(st.doctors, st.searchTerm, st.specialty)
  }

  /** With no search text and no specialty chosen, every fetched doctor is listed, in order. */
  lemma {:induction false} NoFiltersListsAll(doctors: seq<Doctor>)
    ensures FilterDoctors(doctors, "", "") == doctors
  {
    if doctors != [] {
      ContainsEmpty(ToLower(doctors[0].name));
      assert ToLower("") == "";
      NoFiltersListsAll(doctors[1..]);
    }
  }

  /** "Clear filters": search text and specialty back to empty, nothing else changed, and the
      page then lists every fetched doctor. */
  function ClearFilters(st: DirectoryState): (r: DirectoryState)
    ensures r.searchTerm == "" && r.specialty == ""
    ensures r.doctors == st.doctors && r.loading == st.loading
    ensures Filtered(r) == st.doctors
  {
    NoFiltersListsAll(st.doctors);
    st.(searchTerm := "", specialty := "")
  }

  /** No value occurs twice. */
  predicate NoDuplicates<T(==)>(s: seq<T>) {
    forall i, j :: 0 <= i < j < |s| ==> s[i] != s[j]
  }

  /** `[...new Set(s)]`: the distinct values of `s`, each where it first occurs. Built as the
      Set is, element by element from the left. */
  function Distinct(s: seq<string>): (r: seq<string>)
    ensures NoDuplicates(r)
    ensures forall x :: x in r <==> x in s
    decreases |s|
  {
    if s == [] then []
    else
      var prefix := Distinct(s[..|s| - 1]);
      assert s == s[..|s| - 1] + [s[|s| - 1]];
      if s[|s| - 1] in prefix then prefix else prefix + [s[|s| - 1]]
  }

  /** Position of the first occurrence of `x` in `s`. */
  function FirstIndex<T(==)>(s: seq<T>, x: T): (k: nat)
    requires x in s
    ensures k < |s| && s[k] == x
    ensures forall j :: 0 <= j < k ==> s[j] != x
  {
    if s[0] == x then 0 else 1 + FirstIndex(s[1..], x)
  }

  /** Appending an element moves no first occurrence; a new element first occurs at the end. */
  lemma FirstIndexAppend<T>(s: seq<T>, x: T, y: T)
    requires y in s + [x]
    ensures y in s ==> FirstIndex(s + [x], y) == FirstIndex(s, y)
    ensures y !in s ==> FirstIndex(s + [x], y) == |s|
  {
    var k := FirstIndex(s + [x], y);
    if y in s {
      var m := FirstIndex(s, y);
      assert (s + [x])[m] == y;
    }
  }

  /** The distinct values appear in the order of their first occurrence in `s`. */
  lemma {:induction false} DistinctKeepsFirstOccurrenceOrder(s: seq<string>)
    ensures forall i, j :: 0 <= i < j < |Distinct(s)| ==>
              FirstIndex(s, Distinct(s)[i]) < FirstIndex(s, Distinct(s)[j])
    decreases |s|
  {
    if s != [] {
      var init, last := s[..|s| - 1], s[|s| - 1];
      assert s == init + [last];
      var prefix := Distinct(init);
      DistinctKeepsFirstOccurrenceOrder(init);
      var r := Distinct(s);
      forall i, j | 0 <= i < j < |r|
        ensures FirstIndex(s, r[i]) < FirstIndex(s, r[j])
      {
        FirstIndexAppend(init, last, r[i]);
        FirstIndexAppend(init, last, r[j]);
        if j < |prefix| {
          assert r[i] == prefix[i] && r[j] == prefix[j];
        } else {
          assert r[j] == last && last !in init && r[i] == prefix[i] && r[i] in init;
        }
      }
    }
  }

  /** The specialty of every doctor, in list order. */
  function SpecialtyColumn(doctors: seq<Doctor>): (r: seq<string>)
    ensures |r| == |doctors|
    ensures forall i :: 0 <= i < |doctors| ==> r[i] == doctors[i].specialty
  {
    seq(|doctors|, i requires 0 <= i < |doctors| => doctors[i].specialty)
  }

  /** `specialties`: the specialty options, without duplicates, exactly the specialties present,
      in order of first appearance in the fetched list. */
  function Specialties(doctors: seq<Doctor>): (r: seq<string>)
    ensures NoDuplicates(r)
    ensures forall sp :: sp in r <==> exists i :: 0 <= i < |doctors| && doctors[i].specialty == sp
    ensures forall sp :: sp in r <==> sp in SpecialtyColumn(doctors)
    ensures forall i, j :: 0 <= i < j < |r| ==>
              FirstIndex(SpecialtyColumn(doctors), r[i]) < FirstIndex(SpecialtyColumn(doctors), r[j])
  {
    var column := SpecialtyColumn(doctors);
    DistinctKeepsFirstOccurrenceOrder(column);
    assert forall sp :: sp in column <==> exists i :: 0 <= i < |doctors| && doctors[i].specialty == sp by {
      forall sp | sp in column ensures exists i :: 0 <= i < |doctors| && doctors[i].specialty == sp {
        var i :| 0 <= i < |column| && column[i] == sp;
      }
    }
    Distinct(column)
  }

  function Sarah(rating: real): Doctor {
    Doctor("1", "Sarah Johnson", "Gynecologist", "", rating, "", None, None)
  }

  function Emily(rating: real): Doctor {
    Doctor("2", "Emily Chen", "Mental Health Specialist", "", rating, "", None, None)
  }

  /** Lower-casing leaves a string without upper-case letters as it is. */
  lemma LowerOfLower(s: string)
    requires forall i :: 0 <= i < |s| ==> !IsUpper(s[i])
    ensures ToLower(s) == s
  {
  }

  /** Lower-casing a capitalised string lower-cases its first letter only. */
  lemma LowerOfCapitalised(s: string, first: char, rest: string)
    requires s == [first] + rest && forall i :: 0 <= i < |rest| ==> !IsUpper(rest[i])
    ensures ToLower(s) == [LowerChar(first)] + rest
  {
    assert s[1..] == rest;
  }

  /** Lower-casing distributes over concatenation. */
  lemma LowerOfConcat(a: string, b: string)
    ensures ToLower(a + b) == ToLower(a) + ToLower(b)
  {
  }

  /** The first example doctor's lower-cased name. */
  lemma SarahName(rating: real)
    ensures ToLower(Sarah(rating).name) == "sarah johnson"
  {
    assert Sarah(rating).name == "Sarah " + "Johnson";
    LowerOfConcat("Sarah ", "Johnson");
    LowerOfCapitalised("Sarah ", 'S', "arah ");
    LowerOfCapitalised("Johnson", 'J', "ohnson");
    assert LowerChar('S') == 's' && LowerChar('J') == 'j';
  }

  /** The second example doctor's lower-cased name. */
  lemma EmilyName(rating: real)
    ensures ToLower(Emily(rating).name) == "emily chen"
  {
    assert Emily(rating).name == "Emily " + "Chen";
    LowerOfConcat("Emily ", "Chen");
    LowerOfCapitalised("Emily ", 'E', "mily ");
    LowerOfCapitalised("Chen", 'C', "hen");
    assert LowerChar('E') == 'e' && LowerChar('C') == 'c';
  }

  /** Which tests the first example doctor passes. */
  lemma SarahTests(rating: real)
    ensures MatchesName(Sarah(rating), "sarah") && !MatchesName(Sarah(rating), "emily")
    ensures MatchesName(Sarah(rating), "")
    ensures MatchesSpecialty(Sarah(rating), "Gynecologist") && MatchesSpecialty(Sarah(rating), "")
  {
    SarahName(rating);
    LowerOfLower("sarah");
    LowerOfLower("emily");
    LowerOfLower("");
    assert IsPrefix("sarah", "sarah johnson");
    MissingFirstCharNotContained("sarah johnson", "emily");
    ContainsEmpty("sarah johnson");
  }

  /** Which tests the second example doctor passes. */
  lemma EmilyTests(rating: real)
    ensures !MatchesName(Emily(rating), "sarah") && MatchesName(Emily(rating), "")
    ensures !MatchesSpecialty(Emily(rating), "Gynecologist") && MatchesSpecialty(Emily(rating), "")
  {
    EmilyName(rating);
    LowerOfLower("sarah");
    LowerOfLower("");
    MissingFirstCharNotContained("emily chen", "sarah");
    ContainsEmpty("emily chen");
    EmilyNotGynecologist(rating);
  }

  /** The second example doctor's specialty is not "Gynecologist" in any case: the lower-cased
      texts differ in length. */
  lemma EmilyNotGynecologist(rating: real)
    ensures ToLower(Emily(rating).specialty) != ToLower("Gynecologist")
  {
    assert |Emily(rating).specialty| == 24;
  }

  /** Searching "sarah" keeps exactly the first of the two doctors. */
  lemma ExampleByName(rating: real)
    ensures FilterDoctors([Sarah(rating), Emily(rating)], "sarah", "") == [Sarah(rating)]
  {
    SarahTests(rating);
    EmilyTests(rating);
    assert [Sarah(rating), Emily(rating)][1..] == [Emily(rating)];
  }

  /** Choosing "Gynecologist" keeps exactly the first of the two doctors. */
  lemma ExampleBySpecialty(rating: real)
    ensures FilterDoctors([Sarah(rating), Emily(rating)], "", "Gynecologist") == [Sarah(rating)]
  {
    SarahTests(rating);
    EmilyTests(rating);
    assert [Sarah(rating), Emily(rating)][1..] == [Emily(rating)];
  }

  /** A name that only the second doctor has, with the first doctor's specialty, keeps none. */
  lemma ExampleNoMatch(rating: real)
    ensures FilterDoctors([Sarah(rating), Emily(rating)], "emily", "Gynecologist") == []
  {
    SarahTests(rating);
    EmilyTests(rating);
    assert [Sarah(rating), Emily(rating)][1..] == [Emily(rating)];
  }
}
