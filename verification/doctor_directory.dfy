/** The doctor directory's filter: a free-text search over names and
    specialties and three drop-down filters, each a case-insensitive
    substring test that the value "all" switches off. */
module DoctorDirectory {
  import Text
  import opened Seqs

  datatype Doctor = Doctor(id: nat, name: string, specialties: seq<string>, tradition: string,
                           availability: string, sessionPrice: string)

  /** The search box and the problem, tradition and availability filters. */
  datatype Query = Query(search: string, problem: string, tradition: string, availability: string)

  const ShowAll := Query("", "all", "all", "all")

  /** `s.toLowerCase().includes(term.toLowerCase())`. */
  predicate Includes(s: string, term: string) {
    Text.Contains(Text.Lower(s), Text.Lower(term))
  }

  /** `list.some(x => x.toLowerCase().includes(term.toLowerCase()))`. */
  predicate AnyIncludes(list: seq<string>, term: string) {
    exists i | 0 <= i < |list| :: Includes(list[i], term)
  }

  predicate MatchesSearch(d: Doctor, term: string) {
    Includes(d.name, term) || AnyIncludes(d.specialties, term)
  }

  predicate MatchesProblem(d: Doctor, problem: string) {
    problem == "all" || AnyIncludes(d.specialties, problem)
  }

  predicate MatchesTradition(d: Doctor, tradition: string) {
    tradition == "all" || Includes(d.tradition, tradition)
  }

  predicate MatchesAvailability(d: Doctor, availability: string) {
    availability == "all" || Includes(d.availability, availability)
  }

  /** All four tests of `filteredDoctors`. */
  predicate Matches(d: Doctor, q: Query) {
    && MatchesSearch(d, q.search)
    && MatchesProblem(d, q.problem)
    && MatchesTradition(d, q.tradition)
    && MatchesAvailability(d, q.availability)
  }

  /** `filteredDoctors`: the doctors that pass every test, in directory
      order. */
  function FilteredDoctors(doctors: seq<Doctor>, q: Query): (r: seq<Doctor>)
    ensures forall d :: d in r <==> d in doctors && Matches(d, q)
    ensures IsSubsequence(r, doctors)
    ensures |r| <= |doctors|
  {
    if doctors == [] then []
    else if Matches(doctors[0], q) then [doctors[0]] + FilteredDoctors(doctors[1..], q)
    else FilteredDoctors(doctors[1..], q)
  }

  /** The filter distributes over concatenation of directories. */
  lemma {:induction false} FilterAppend(a: seq<Doctor>, b: seq<Doctor>, q: Query)
    ensures FilteredDoctors(a + b, q) == FilteredDoctors(a, q) + FilteredDoctors(b, q)
  {
    if a == [] {
      assert a + b == b;
    } else {
      assert (a + b)[0] == a[0];
      assert (a + b)[1..] == a[1..] + b;
      FilterAppend(a[1..], b, q);
    }
  }

  /** Filtering the filtered list changes nothing. */
  lemma {:induction false} FilterIdempotent(doctors: seq<Doctor>, q: Query)
    ensures FilteredDoctors(FilteredDoctors(doctors, q), q) == FilteredDoctors(doctors, q)
  {
    if doctors != [] {
      FilterIdempotent(doctors[1..], q);
      if Matches(doctors[0], q) {
        var rest := FilteredDoctors(doctors[1..], q);
        assert ([doctors[0]] + rest)[1..] == rest;
      }
    }
  }

  /** An empty search and "all" everywhere show the whole directory. */
  lemma {:induction false} ShowAllKeepsEveryone(doctors: seq<Doctor>)
    ensures FilteredDoctors(doctors, ShowAll) == doctors
  {
    if doctors != [] {
      Text.ContainsEmpty(Text.Lower(doctors[0].name));
      assert Text.Lower("") == "";
      ShowAllKeepsEveryone(doctors[1..]);
      assert doctors == [doctors[0]] + doctors[1..];
    }
  }

  /** Tightening one filter from "all" can only shorten the list. */
  lemma {:induction false} NarrowingShortens(doctors: seq<Doctor>, q: Query, tradition: string)
    requires q.tradition == "all"
    ensures |FilteredDoctors(doctors, q.(tradition := tradition))| <= |FilteredDoctors(doctors, q)|
  {
    if doctors != [] {
      NarrowingShortens(doctors[1..], q, tradition);
    }
  }

  /** Case does not matter in any of the four inputs' matching, only in
      the literal value "all". */
  lemma LowerCaseIncludes(s: string, term: string)
    ensures Includes(s, term) <==> Includes(s, Text.Lower(term))
  {
    Text.LowerIdempotent(term);
  }

  /** "Showing n of m": the count shown never exceeds the directory size. */
  function ShowingCount(doctors: seq<Doctor>, q: Query): (r: (nat, nat))
    ensures r.0 <= r.1 && r.1 == |doctors|
    ensures r.0 == |doctors| <==> forall i :: 0 <= i < |doctors| ==> Matches(doctors[i], q)
  {
    CountAllIffAllMatch(doctors, q);
    (|FilteredDoctors(doctors, q)|, |doctors|)
  }

  lemma {:induction false} CountAllIffAllMatch(doctors: seq<Doctor>, q: Query)
    ensures |FilteredDoctors(doctors, q)| == |doctors| <==> forall i :: 0 <= i < |doctors| ==> Matches(doctors[i], q)
  {
    if doctors != [] {
      var rest := doctors[1..];
      CountAllIffAllMatch(rest, q);
      if Matches(doctors[0], q) {
        assert |FilteredDoctors(doctors, q)| == 1 + |FilteredDoctors(rest, q)|;
        assert forall i :: 1 <= i < |doctors| ==> doctors[i] == rest[i - 1];
      } else {
        assert FilteredDoctors(doctors, q) == FilteredDoctors(rest, q);
      }
    }
  }
}
