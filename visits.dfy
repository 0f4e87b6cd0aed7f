/** The visit-record store and the dashboard query of the triage app.

    Recording a visit checks the two required fields, scores the patient,
    builds one record whose id is one more than the number of records
    already stored, and appends it at the end of the list. The dashboard
    counts the records per level, keeps the records whose level and village
    are both selected, in their stored order, and sorts what it kept by
    score, highest first, keeping equal scores in their stored order.
 */
module Visits {
  import opened Scoring

  /** One stored visit: the fields of one object of the backing document. */
  datatype VisitRecord = VisitRecord(
    id: int,
    patientName: string,
    age: int,
    gender: string,
    village: string,
    healthWorker: string,
    visitDate: string,
    symptoms: seq<string>,
    conditions: seq<string>,
    vitals: Vitals,
    riskScore: int,
    riskLevel: RiskLevel,
    recommendation: string,
    timestamp: string)

  /** What the data-entry form hands over. The visit date arrives already
      formatted as text. */
  datatype VisitForm = VisitForm(
    patientName: string,
    age: int,
    gender: string,
    village: string,
    healthWorker: string,
    visitDate: string,
    symptoms: seq<string>,
    otherSymptoms: string,
    conditions: seq<string>,
    vitals: Vitals)

  datatype SubmitOutcome = Recorded(record: VisitRecord) | MissingRequiredFields

  // ---------------------------------------------------------------------
  // Recording a visit
  // ---------------------------------------------------------------------

  /** The symptoms a record keeps: the selected ones, then the free-text
      entry when it is not empty. */
  function StoredSymptoms(selected: seq<string>, other: string): (stored: seq<string>)
    ensures |stored| == |selected| + (if other == "" then 0 else 1)
    ensures stored[..|selected|] == selected
    ensures other != "" ==> stored[|selected|] == other
  {
    selected + (if other == "" then [] else [other])
  }

  /** The record the app stores for a form, under a given id and timestamp. */
  function RecordFor(id: int, form: VisitForm, timestamp: string): (r: VisitRecord)
    ensures r.id == id && r.patientName == form.patientName && r.village == form.village
    ensures r.age == form.age && r.conditions == form.conditions && r.vitals == form.vitals
    ensures r.symptoms == StoredSymptoms(form.symptoms, form.otherSymptoms) && r.timestamp == timestamp
    ensures 0 <= r.riskScore <= ScoreCap
    ensures r.riskLevel == RiskLevelOf(r.riskScore)
    ensures r.recommendation == Recommendation(r.riskLevel, r.riskScore)
  {
    var score := RiskScore(form.age, form.symptoms, form.vitals, form.conditions);
    var level := RiskLevelOf(score);
    VisitRecord(id, form.patientName, form.age, form.gender, form.village, form.healthWorker,
      form.visitDate, StoredSymptoms(form.symptoms, form.otherSymptoms), form.conditions,
      form.vitals, score, level, Recommendation(level, score), timestamp)
  }

  /** A record as the app produces it: a named patient in a named village,
      and an assessment that agrees with itself. */
  ghost predicate WellFormed(r: VisitRecord) {
    && r.patientName != ""
    && r.village != ""
    && 0 <= r.riskScore <= ScoreCap
    && r.riskLevel == RiskLevelOf(r.riskScore)
    && r.recommendation == Recommendation(r.riskLevel, r.riskScore)
  }

  /** The ids of a list are 1, 2, 3, ... in list order. */
  ghost predicate SequentialIds(visits: seq<VisitRecord>) {
    forall i :: 0 <= i < |visits| ==> visits[i].id == i + 1
  }

  ghost predicate AllWellFormed(visits: seq<VisitRecord>) {
    forall i :: 0 <= i < |visits| ==> WellFormed(visits[i])
  }

  /** The record stored for a form is well formed exactly when both required
      fields are filled in, and its score is the engine's score of the
      selected symptoms only: the free-text entry is kept but not scored. */
  lemma RecordForWellFormed(id: int, form: VisitForm, timestamp: string)
    ensures WellFormed(RecordFor(id, form, timestamp)) <==> form.patientName != "" && form.village != ""
    ensures RecordFor(id, form, timestamp).riskScore
         == RiskScore(form.age, form.symptoms, form.vitals, form.conditions)
  {
  }

  /** Changing the free-text symptom entry changes the stored symptoms but
      never the score, the level or the recommendation. */
  lemma OtherSymptomsNotScored(id: int, form: VisitForm, other: string, timestamp: string)
    ensures RecordFor(id, form.(otherSymptoms := other), timestamp).riskScore
         == RecordFor(id, form, timestamp).riskScore
    ensures RecordFor(id, form.(otherSymptoms := other), timestamp).riskLevel
         == RecordFor(id, form, timestamp).riskLevel
    ensures RecordFor(id, form.(otherSymptoms := other), timestamp).recommendation
         == RecordFor(id, form, timestamp).recommendation
  {
  }

  /** In a list with sequential ids, the ids are distinct and the record
      with id k is the k-th one. */
  lemma SequentialIdsIdentify(visits: seq<VisitRecord>, i: int, j: int)
    requires SequentialIds(visits)
    requires 0 <= i < |visits| && 0 <= j < |visits|
    ensures visits[i].id == visits[j].id <==> i == j
    ensures 1 <= visits[i].id <= |visits|
  {
  }

  /** The persisted list of visits, owned by the store and only appended to. */
  class VisitStore {
    var visits: seq<VisitRecord>

    /** Loading the backing document: a missing one reads as an empty list. */
    constructor (document: Option<seq<VisitRecord>>)
      ensures visits == ValueOr(document, [])
      ensures document.None? ==> SequentialIds(visits) && AllWellFormed(visits)
    {
      visits := ValueOr(document, []);
    }

    /** Submitting the data-entry form. Without a patient name or a village
        nothing is stored; otherwise the patient is scored and the new record
        goes at the end of the list with id one more than the prior length. */
    method SubmitVisit(form: VisitForm, timestamp: string) returns (outcome: SubmitOutcome)
      modifies this
      ensures outcome.MissingRequiredFields? <==> form.patientName == "" || form.village == ""
      ensures outcome.MissingRequiredFields? ==> visits == old(visits)
      ensures outcome.Recorded? ==>
        && outcome.record == RecordFor(|old(visits)| + 1, form, timestamp)
        && visits == old(visits) + [outcome.record]
        && WellFormed(outcome.record)
      ensures SequentialIds(old(visits)) ==> SequentialIds(visits)
      ensures AllWellFormed(old(visits)) ==> AllWellFormed(visits)
    {
      if form.patientName == "" || form.village == "" {
        return MissingRequiredFields;
      }
      var score := CalculateRiskScore(form.age, form.symptoms, form.vitals, form.conditions);
      var level := RiskLevelOf(score);
      var recommendation := Recommendation(level, score);
      var symptoms := form.symptoms + (if form.otherSymptoms != "" then [form.otherSymptoms] else []);
      var record := VisitRecord(|visits| + 1, form.patientName, form.age, form.gender, form.village,
        form.healthWorker, form.visitDate, symptoms, form.conditions, form.vitals,
        score, level, recommendation, timestamp);
      visits := visits + [record];
      outcome := Recorded(record);
    }
  }

  // ---------------------------------------------------------------------
  // Dashboard: counts per level
  // ---------------------------------------------------------------------

  /** How many records carry the given level. */
  function CountLevel(visits: seq<VisitRecord>, level: RiskLevel): (n: nat)
    ensures n <= |visits|
  {
    if visits == [] then 0
    else (if visits[0].riskLevel == level then 1 else 0) + CountLevel(visits[1..], level)
  }

  /** Every record is HIGH, MEDIUM or LOW, so the three counts add up to the
      number of records. */
  lemma {:induction false} CountsPartition(visits: seq<VisitRecord>)
    ensures CountLevel(visits, High) + CountLevel(visits, Medium) + CountLevel(visits, Low) == |visits|
  {
    if visits != [] {
      CountsPartition(visits[1..]);
    }
  }

  // ---------------------------------------------------------------------
  // Dashboard: filter
  // ---------------------------------------------------------------------

  /** Whether a record passes the two dashboard filters. */
  predicate Selected(r: VisitRecord, levels: set<RiskLevel>, villages: set<string>) {
    r.riskLevel in levels && r.village in villages
  }

  /** The records that pass both filters, in stored order. */
  function FilterVisits(visits: seq<VisitRecord>, levels: set<RiskLevel>, villages: set<string>)
    : (kept: seq<VisitRecord>)
    ensures |kept| <= |visits|
    ensures forall r :: r in kept <==> r in visits && Selected(r, levels, villages)
  {
    if visits == [] then []
    else
      var rest := FilterVisits(visits[1..], levels, villages);
      if Selected(visits[0], levels, villages) then [visits[0]] + rest else rest
  }

  /** The villages that occur in the records: the village filter's default. */
  function VillagesOf(visits: seq<VisitRecord>): (villages: set<string>)
    ensures forall v :: v in villages <==> exists r :: r in visits && r.village == v
  {
    set r | r in visits :: r.village
  }

  const AllLevels: set<RiskLevel> := {High, Medium, Low}

  /** Filtering keeps the stored order: filtering two lists one after the
      other is filtering each and joining the results. */
  lemma {:induction false} FilterAppend(a: seq<VisitRecord>, b: seq<VisitRecord>,
                                        levels: set<RiskLevel>, villages: set<string>)
    ensures FilterVisits(a + b, levels, villages) == FilterVisits(a, levels, villages) + FilterVisits(b, levels, villages)
  {
    if a == [] {
      assert a + b == b;
    } else {
      assert (a + b)[0] == a[0];
      assert (a + b)[1..] == a[1..] + b;
      FilterAppend(a[1..], b, levels, villages);
    }
  }

  /** An empty level selection or an empty village selection shows nothing. */
  lemma FilterEmptySelection(visits: seq<VisitRecord>, levels: set<RiskLevel>, villages: set<string>)
    requires levels == {} || villages == {}
    ensures FilterVisits(visits, levels, villages) == []
  {
  }

  /** When every level is selected and every village of the records is
      selected, the filter keeps every record, in order. */
  lemma {:induction false} FilterKeepsAll(visits: seq<VisitRecord>, villages: set<string>)
    requires VillagesOf(visits) <= villages
    ensures FilterVisits(visits, AllLevels, villages) == visits
  {
    if visits != [] {
      assert visits[0] in visits;
      assert VillagesOf(visits[1..]) <= VillagesOf(visits) by {
        forall r | r in visits[1..] ensures r in visits { }
      }
      assert visits[0].riskLevel in AllLevels by {
        var l := visits[0].riskLevel;
        assert l == High || l == Medium || l == Low;
      }
      assert Selected(visits[0], AllLevels, villages);
      FilterKeepsAll(visits[1..], villages);
      assert [visits[0]] + visits[1..] == visits;
    }
  }

  /** The dashboard's default selection shows every record. */
  lemma DefaultFilterShowsAll(visits: seq<VisitRecord>)
    ensures FilterVisits(visits, AllLevels, VillagesOf(visits)) == visits
  {
    FilterKeepsAll(visits, VillagesOf(visits));
  }

  /** The count of a level is the number of records the dashboard shows when
      only that level and every village are selected. */
  lemma {:induction false} CountIsFilterSize(visits: seq<VisitRecord>, level: RiskLevel, villages: set<string>)
    requires VillagesOf(visits) <= villages
    ensures CountLevel(visits, level) == |FilterVisits(visits, {level}, villages)|
  {
    if visits != [] {
      assert visits[0] in visits;
      assert VillagesOf(visits[1..]) <= VillagesOf(visits) by {
        forall r | r in visits[1..] ensures r in visits { }
      }
      CountIsFilterSize(visits[1..], level, villages);
    }
  }

  // ---------------------------------------------------------------------
  // Dashboard: stable sort by score, highest first
  // ---------------------------------------------------------------------

  /** Scores never increase along the list. */
  ghost predicate SortedByScoreDesc(s: seq<VisitRecord>) {
    forall i, j :: 0 <= i < j < |s| ==> s[i].riskScore >= s[j].riskScore
  }

  /** The records with score k, in list order. */
  function WithScore(s: seq<VisitRecord>, k: int): seq<VisitRecord> {
    if s == [] then []
    else WithScore(s[..|s| - 1], k) + (if s[|s| - 1].riskScore == k then [s[|s| - 1]] else [])
  }

  /** Places x into t right after the last record whose score is at least
      x's, so x follows every record it ties with. */
  function InsertByScore(t: seq<VisitRecord>, x: VisitRecord): (r: seq<VisitRecord>)
    ensures |r| == |t| + 1
  {
    if t == [] then [x]
    else if t[|t| - 1].riskScore >= x.riskScore then t + [x]
    else InsertByScore(t[..|t| - 1], x) + [t[|t| - 1]]
  }

  /** Stable descending sort by score: each record is inserted, in list
      order, after every earlier record it does not outscore. */
  function SortByScore(s: seq<VisitRecord>): (sorted: seq<VisitRecord>)
    ensures |sorted| == |s|
  {
    if s == [] then [] else InsertByScore(SortByScore(s[..|s| - 1]), s[|s| - 1])
  }

  lemma {:induction false} InsertPermutes(t: seq<VisitRecord>, x: VisitRecord)
    ensures multiset(InsertByScore(t, x)) == multiset(t) + multiset{x}
    decreases |t|
  {
    if t != [] && t[|t| - 1].riskScore < x.riskScore {
      var t' := t[..|t| - 1];
      InsertPermutes(t', x);
      assert t == t' + [t[|t| - 1]];
    }
  }

  lemma {:induction false} InsertSorted(t: seq<VisitRecord>, x: VisitRecord)
    requires SortedByScoreDesc(t)
    ensures SortedByScoreDesc(InsertByScore(t, x))
    decreases |t|
  {
    if t != [] && t[|t| - 1].riskScore < x.riskScore {
      var t' := t[..|t| - 1];
      var last := t[|t| - 1];
      InsertSorted(t', x);
      InsertPermutes(t', x);
      var u := InsertByScore(t', x);
      forall i | 0 <= i < |u| ensures u[i].riskScore >= last.riskScore {
        assert u[i] in multiset(u);
        if u[i] != x {
          assert u[i] in multiset(t');
          var k :| 0 <= k < |t'| && t'[k] == u[i];
          assert t[k] == t'[k];
        }
      }
    }
  }

  lemma {:induction false} InsertKeepsTies(t: seq<VisitRecord>, x: VisitRecord, k: int)
    ensures WithScore(InsertByScore(t, x), k) == WithScore(t, k) + (if x.riskScore == k then [x] else [])
    decreases |t|
  {
    if t == [] {
      assert [x][..0] == [];
    } else if t[|t| - 1].riskScore >= x.riskScore {
      assert (t + [x])[..|t|] == t;
    } else {
      var t' := t[..|t| - 1];
      var last := t[|t| - 1];
      var u := InsertByScore(t', x);
      InsertKeepsTies(t', x, k);
      assert (u + [last])[..|u|] == u;
    }
  }

  /** The sorted list is a permutation of the input. */
  lemma {:induction false} SortPermutes(s: seq<VisitRecord>)
    ensures multiset(SortByScore(s)) == multiset(s)
    ensures |SortByScore(s)| == |s|
  {
    if s != [] {
      var s' := s[..|s| - 1];
      SortPermutes(s');
      InsertPermutes(SortByScore(s'), s[|s| - 1]);
      assert s == s' + [s[|s| - 1]];
    }
  }

  /** The sorted list has the highest scores first. */
  lemma {:induction false} SortSorted(s: seq<VisitRecord>)
    ensures SortedByScoreDesc(SortByScore(s))
  {
    if s != [] {
      SortSorted(s[..|s| - 1]);
      InsertSorted(SortByScore(s[..|s| - 1]), s[|s| - 1]);
    }
  }

  /** The sort is stable: for every score, the records with that score
      appear in the same relative order as in the input. */
  lemma {:induction false} SortStable(s: seq<VisitRecord>, k: int)
    ensures WithScore(SortByScore(s), k) == WithScore(s, k)
  {
    if s != [] {
      SortStable(s[..|s| - 1], k);
      InsertKeepsTies(SortByScore(s[..|s| - 1]), s[|s| - 1], k);
    }
  }

  /** Scores 40, 40, 80, 10 sort to 80 first and 10 last, with the two
      records scoring 40 left in their original order. */
  lemma TiedScoresKeepOrder(a: VisitRecord, b: VisitRecord, c: VisitRecord, d: VisitRecord)
    requires a.riskScore == 40 && b.riskScore == 40 && c.riskScore == 80 && d.riskScore == 10
    ensures SortByScore([a, b, c, d]) == [c, a, b, d]
  {
    var s := [a, b, c, d];
    assert s[..3] == [a, b, c] && s[..3][..2] == [a, b] && s[..3][..2][..1] == [a];
    assert [a][..0] == [];
    assert SortByScore([a]) == [a];
    assert SortByScore([a, b]) == [a, b];
    assert [a, b][..1] == [a];
    assert InsertByScore([a], c) == [c, a];
    assert SortByScore([a, b, c]) == [c, a, b];
    assert [c, a, b][..2] == [c, a];
  }

  /** One step of the shifting loop: copying s[j - 1] one place right,
      when the key outscores it, leaves the pending insertion unchanged. */
  lemma ShiftStep(s: seq<VisitRecord>, j: nat, i: nat, key: VisitRecord)
    requires 0 < j <= i < |s|
    requires s[j - 1].riskScore < key.riskScore
    ensures InsertByScore(s[..j], key) + s[j + 1..i + 1]
         == InsertByScore(s[j := s[j - 1]][..j - 1], key) + s[j := s[j - 1]][j..i + 1]
  {
    var t := s[j := s[j - 1]];
    assert s[..j][..j - 1] == s[..j - 1] == t[..j - 1];
    assert t[j..i + 1] == [s[j - 1]] + s[j + 1..i + 1];
  }

  /** The end of the shifting loop: writing the key into the gap completes
      the insertion. */
  lemma PlaceKey(s: seq<VisitRecord>, j: nat, i: nat, key: VisitRecord)
    requires j <= i < |s|
    requires j == 0 || s[j - 1].riskScore >= key.riskScore
    ensures InsertByScore(s[..j], key) + s[j + 1..i + 1] == s[j := key][..i + 1]
  {
  }

  /** Moves a[i] left past every record of a[..i] that it outscores. */
  method InsertAt(a: array<VisitRecord>, i: nat)
    requires i < a.Length
    modifies a
    ensures a[..i + 1] == InsertByScore(old(a[..i]), old(a[i]))
    ensures a[i + 1..] == old(a[i + 1..])
  {
    var key := a[i];
    ghost var prefix := a[..i];
    var j := i;
    while j > 0 && a[j - 1].riskScore < key.riskScore
      invariant 0 <= j <= i
      invariant InsertByScore(prefix, key) == InsertByScore(a[..j], key) + a[j + 1..i + 1]
      invariant a[i + 1..] == old(a[i + 1..])
    {
      ShiftStep(a[..], j, i, key);
      a[j] := a[j - 1];
      j := j - 1;
    }
    PlaceKey(a[..], j, i, key);
    a[j] := key;
  }

  /** Insertion sort in place, as the dashboard sorts its list. */
  method SortByScoreInPlace(a: array<VisitRecord>)
    modifies a
    ensures a[..] == SortByScore(old(a[..]))
    ensures SortedByScoreDesc(a[..]) && multiset(a[..]) == multiset(old(a[..]))
  {
    ghost var orig := a[..];
    for i := 0 to a.Length
      invariant a[..i] == SortByScore(orig[..i])
      invariant a[i..] == orig[i..]
    {
      ghost var before := a[..];
      assert before[..i] == a[..i];
      InsertAt(a, i);
      assert orig[..i + 1][..i] == orig[..i];
      assert before[i] == orig[i];
      assert a[i + 1..] == orig[i + 1..];
    }
    assert a[..] == a[..a.Length];
    assert orig == orig[..a.Length];
    SortSorted(orig);
    SortPermutes(orig);
  }

  /** The list the dashboard shows: the selected records, highest score
      first, ties in stored order. */
  method DashboardList(visits: seq<VisitRecord>, levels: set<RiskLevel>, villages: set<string>)
    returns (shown: seq<VisitRecord>)
    ensures shown == SortByScore(FilterVisits(visits, levels, villages))
    ensures SortedByScoreDesc(shown)
    ensures multiset(shown) == multiset(FilterVisits(visits, levels, villages))
    ensures forall r :: r in shown <==> r in visits && Selected(r, levels, villages)
    ensures forall k :: WithScore(shown, k) == WithScore(FilterVisits(visits, levels, villages), k)
  {
    var kept := FilterVisits(visits, levels, villages);
    var a := new VisitRecord[|kept|](i requires 0 <= i < |kept| => kept[i]);
    assert a[..] == kept;
    SortByScoreInPlace(a);
    shown := a[..];
    forall k ensures WithScore(shown, k) == WithScore(kept, k) {
      SortStable(kept, k);
    }
    assert forall r :: r in shown <==> r in multiset(shown);
    assert forall r :: r in kept <==> r in multiset(kept);
  }
}
