/** Looking patients up in the roster: by id, and by a free-text query over
    their names and medical record number. */
module Roster {
  import opened PatientTypes
  import opened Seqs
  import opened Text

  /** No patient before position `j` has the id. */
  predicate IdFreeBefore(roster: seq<Patient>, id: int, j: int)
    requires j <= |roster|
  {
    forall i :: 0 <= i < j ==> roster[i].id != id
  }

  /** `find(patient => patient.id === id)`: the first patient with that id,
      or nothing when no patient has it. */
  function GetPatientById(roster: seq<Patient>, id: int): (r: Option<Patient>)
    ensures r.None? <==> forall i :: 0 <= i < |roster| ==> roster[i].id != id
    ensures r.Some? ==> r.value in roster && r.value.id == id
    ensures forall j :: 0 <= j < |roster| && roster[j].id == id && IdFreeBefore(roster, id, j) ==>
              r == Some(roster[j])
  {
    if roster == [] then None
    else if roster[0].id == id then Some(roster[0])
    else
      var r := GetPatientById(roster[1..], id);
      assert forall j :: 1 <= j < |roster| ==> roster[j] == roster[1..][j - 1];
      r
  }

  /** The patient matches the already lower-cased query on one of the three fields. */
  predicate Matches(p: Patient, lowerQuery: string)
  {
    Contains(LowerAscii(p.firstName), lowerQuery) ||
    Contains(LowerAscii(p.lastName), lowerQuery) ||
    Contains(LowerAscii(p.medicalRecordNumber), lowerQuery)
  }

  function MatchesQuery(lowerQuery: string): Patient -> bool
  {
    (p: Patient) => Matches(p, lowerQuery)
  }

  /** `searchPatients`: the patients whose first name, last name or medical
      record number contains the query, ignoring case. */
  function SearchPatients(roster: seq<Patient>, query: string): (r: seq<Patient>)
    ensures forall p :: p in r <==> p in roster && Matches(p, LowerAscii(query))
    ensures forall p :: multiset(r)[p] == if Matches(p, LowerAscii(query)) then multiset(roster)[p] else 0
  {
    var f := MatchesQuery(LowerAscii(query));
    var r := Filter(roster, f);
    forall p
      ensures multiset(r)[p] == if Matches(p, LowerAscii(query)) then multiset(roster)[p] else 0
    {
      FilterCount(roster, f, p);
    }
    assert forall p :: p in roster && f(p) ==> p in r by {
      forall p | p in roster && f(p) ensures p in r {
        var i :| 0 <= i < |roster| && roster[i] == p;
      }
    }
    r
  }

  /** The results keep the roster's order. */
  lemma SearchPatientsKeepsOrder(roster: seq<Patient>, query: string)
    ensures IsSubseq(SearchPatients(roster, query), roster)
  {
    FilterIsSubseq(roster, MatchesQuery(LowerAscii(query)));
  }

  /** The empty query occurs in every field: the whole roster comes back. */
  lemma SearchEmptyQuery(roster: seq<Patient>)
    ensures SearchPatients(roster, "") == roster
  {
    forall i | 0 <= i < |roster|
      ensures MatchesQuery(LowerAscii(""))(roster[i])
    {
      assert OccursAt(LowerAscii(roster[i].firstName), "", 0);
    }
    FilterAllPass(roster, MatchesQuery(LowerAscii("")));
  }

  /** Upper- and lower-case queries find the same patients. */
  lemma SearchIgnoresQueryCase(roster: seq<Patient>, query: string)
    ensures SearchPatients(roster, LowerAscii(query)) == SearchPatients(roster, query)
  {
    LowerAsciiIdempotent(query);
  }

  /** A patient is found by its own medical record number. */
  lemma SearchFindsRecordNumber(roster: seq<Patient>, p: Patient)
    requires p in roster
    ensures p in SearchPatients(roster, p.medicalRecordNumber)
  {
    var m := LowerAscii(p.medicalRecordNumber);
    assert m[0..|m|] == m;
    assert OccursAt(m, m, 0);
  }
}
