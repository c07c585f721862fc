/**
 * The eye-exam records ("passport"): an in-memory list that is appended to
 * and, on every render, sorted newest first; each entry is then labelled
 * with the progression of its mean sphere against the next-older entry.
 */
module RecordsLedger {
  import opened Wrappers

  /** A calendar date as an integer that orders like the date (YYYYMMDD). */
  type Date = int

  /** One exam; spheres are in diopters, more negative meaning more myopic. */
  datatype ExamRecord = ExamRecord(date: Date, optometrist: string, odSphere: real, osSphere: real, notes: string)

  function MeanSphere(r: ExamRecord): real {
    (r.odSphere + r.osSphere) / 2.0
  }

  datatype Progression = Stable | Increased | Improved

  /** The progression badge of `rec` given its next-older neighbour, if any. */
  function Classify(rec: ExamRecord, older: Option<ExamRecord>): (p: Progression)
    ensures older.None? ==> p == Stable
    ensures older.Some? ==> (p == Increased <==> MeanSphere(rec) < MeanSphere(older.value))
    ensures older.Some? ==> (p == Improved <==> MeanSphere(rec) > MeanSphere(older.value))
    ensures older.Some? ==> (p == Stable <==> MeanSphere(rec) == MeanSphere(older.value))
  {
    match older
    case None => Stable
    case Some(prev) =>
      var avgSphere := MeanSphere(rec);
      var prevAvgSphere := MeanSphere(prev);
      if avgSphere < prevAvgSphere then Increased
      else if avgSphere > prevAvgSphere then Improved
      else Stable
  }

  /** The badge of entry i of a list sorted newest first. */
  function ProgressionAt(sorted: seq<ExamRecord>, i: nat): Progression
    requires i < |sorted|
  {
    Classify(sorted[i], if i + 1 < |sorted| then Some(sorted[i + 1]) else None)
  }

  /** Each record is not older than the one after it. */
  predicate NewestFirst(rs: seq<ExamRecord>) {
    forall i :: 0 < i < |rs| ==> rs[i - 1].date >= rs[i].date
  }

  /** The records dated d, in list order. */
  function WithDate(rs: seq<ExamRecord>, d: Date): seq<ExamRecord> {
    if rs == [] then []
    else (if rs[0].date == d then [rs[0]] else []) + WithDate(rs[1..], d)
  }

  /** Insert x into a list sorted newest first, ahead of the records that are
      not newer than it. */
  function Insert(x: ExamRecord, s: seq<ExamRecord>): (r: seq<ExamRecord>)
    requires NewestFirst(s)
    ensures NewestFirst(r)
    ensures multiset(r) == multiset(s) + multiset{x}
    ensures |r| == |s| + 1 && (r[0] == x || (s != [] && r[0] == s[0]))
  {
    if s == [] || s[0].date <= x.date then
      [x] + s
    else
      assert s == [s[0]] + s[1..];
      [s[0]] + Insert(x, s[1..])
  }

  /** In a list sorted newest first, any record is at least as new as every
      record after it. */
  lemma {:induction false} NewestFirstPairwise(rs: seq<ExamRecord>, i: nat, j: nat)
    requires NewestFirst(rs) && i <= j < |rs|
    ensures rs[i].date >= rs[j].date
    decreases j - i
  {
    if i < j {
      NewestFirstPairwise(rs, i + 1, j);
    }
  }

  /** Array.prototype.sort with the comparator `b.date - a.date`: a stable
      sort, newest first. The result is ordered and is a permutation of the
      input; SortKeepsDateOrder shows it is stable. */
  function SortNewestFirst(rs: seq<ExamRecord>): (r: seq<ExamRecord>)
    ensures NewestFirst(r)
    ensures multiset(r) == multiset(rs)
  {
    if rs == [] then []
    else
      assert rs == [rs[0]] + rs[1..];
      Insert(rs[0], SortNewestFirst(rs[1..]))
  }

  lemma WithDateCons(a: ExamRecord, t: seq<ExamRecord>, d: Date)
    ensures WithDate([a] + t, d) == (if a.date == d then [a] else []) + WithDate(t, d)
  {
  }

  /** Insertion puts x ahead of every record of its own date. */
  lemma {:induction false} InsertKeepsDateOrder(x: ExamRecord, s: seq<ExamRecord>, d: Date)
    requires NewestFirst(s)
    ensures WithDate(Insert(x, s), d) == if x.date == d then [x] + WithDate(s, d) else WithDate(s, d)
  {
    if s == [] || s[0].date <= x.date {
      WithDateCons(x, s, d);
    } else {
      var rest := Insert(x, s[1..]);
      InsertKeepsDateOrder(x, s[1..], d);
      WithDateCons(s[0], rest, d);
      WithDateCons(s[0], s[1..], d);
      assert s == [s[0]] + s[1..];
    }
  }

  /** The sort is stable: the records of any one date keep their order. */
  lemma {:induction false} SortKeepsDateOrder(rs: seq<ExamRecord>, d: Date)
    ensures WithDate(SortNewestFirst(rs), d) == WithDate(rs, d)
  {
    if rs != [] {
      SortKeepsDateOrder(rs[1..], d);
      InsertKeepsDateOrder(rs[0], SortNewestFirst(rs[1..]), d);
      WithDateCons(rs[0], rs[1..], d);
      assert rs == [rs[0]] + rs[1..];
    }
  }

  datatype Card = Card(rec: ExamRecord, progression: Progression)

  /** What renderRecords puts in the list. */
  datatype Rendered = NoRecordsMessage | Cards(cards: seq<Card>)

  /** The forEach of renderRecords: one card per record, each with the
      progression against its older neighbour. */
  method BuildCards(sorted: seq<ExamRecord>) returns (cards: seq<Card>)
    ensures |cards| == |sorted|
    ensures forall i :: 0 <= i < |sorted| ==> cards[i] == Card(sorted[i], ProgressionAt(sorted, i))
  {
    cards := [];
    var index := 0;
    while index < |sorted|
      invariant 0 <= index <= |sorted| && |cards| == index
      invariant forall i :: 0 <= i < index ==> cards[i] == Card(sorted[i], ProgressionAt(sorted, i))
    {
      var rec := sorted[index];
      var prevRec := if index + 1 < |sorted| then Some(sorted[index + 1]) else None;
      cards := cards + [Card(rec, Classify(rec, prevRec))];
      index := index + 1;
    }
  }

  /** The sphere stored for a form field: the parsed number, or 0 when the
      field does not parse as a number. The parse itself is the caller's,
      given here as None when it yields NaN. */
  function SphereOrZero(parsed: Option<real>): (v: real)
    ensures parsed.None? ==> v == 0.0
    ensures parsed.Some? ==> v == parsed.value
  {
    match parsed
    case Some(x) => x
    case None => 0.0
  }

  // ---------------------------------------------------------------------
  // Properties
  // ---------------------------------------------------------------------

  /** Reading the badges: if no entry from k down to the oldest says
      "Improved", entry k's mean is not above the oldest entry's. */
  lemma {:induction false} NoImprovementMeansNoBetter(s: seq<ExamRecord>, k: nat)
    requires k < |s|
    requires forall i :: k <= i < |s| ==> ProgressionAt(s, i) != Improved
    ensures MeanSphere(s[k]) <= MeanSphere(s[|s| - 1])
    decreases |s| - k
  {
    if k + 1 < |s| {
      NoImprovementMeansNoBetter(s, k + 1);
      assert ProgressionAt(s, k) != Improved;
    }
  }

  /** Symmetrically, with no "Increased" badge from k on, entry k's mean is
      not below the oldest entry's. */
  lemma {:induction false} NoIncreaseMeansNoWorse(s: seq<ExamRecord>, k: nat)
    requires k < |s|
    requires forall i :: k <= i < |s| ==> ProgressionAt(s, i) != Increased
    ensures MeanSphere(s[k]) >= MeanSphere(s[|s| - 1])
    decreases |s| - k
  {
    if k + 1 < |s| {
      NoIncreaseMeansNoWorse(s, k + 1);
      assert ProgressionAt(s, k) != Increased;
    }
  }

  const Seed2024: ExamRecord := ExamRecord(20240815, "VisionFirst Opticians", -0.75, -0.75,
    "First signs of myopia, recommended follow-up in 6 months.")
  const Seed2025: ExamRecord := ExamRecord(20250220, "ClearView Eyecare", -1.25, -1.50,
    "Progression noted. Discussed myopia control options.")

  /** The two entries the list starts with. */
  const SeedRecords: seq<ExamRecord> := [Seed2024, Seed2025]

  /** The seeded list renders newest first, the 2025 exam (mean -1.375
      against -0.75) as Increased and the 2024 exam as Stable. */
  lemma SeedProgression()
    ensures SortNewestFirst(SeedRecords) == [Seed2025, Seed2024]
    ensures ProgressionAt([Seed2025, Seed2024], 0) == Increased
    ensures ProgressionAt([Seed2025, Seed2024], 1) == Stable
  {
  }

  /** passportRecords. */
  class Ledger {
    var records: seq<ExamRecord>

    constructor Seeded()
      ensures records == SeedRecords
    {
      records := SeedRecords;
    }

    /** passportRecords.push(rec). */
    method Add(rec: ExamRecord)
      modifies this
      ensures records == old(records) + [rec]
    {
      records := records + [rec];
    }

    /** renderRecords: an empty list shows a message; otherwise the list is
        sorted in place, newest first, and each record gets a card. */
    method Render() returns (view: Rendered)
      modifies this
      ensures old(records) == [] ==> records == [] && view == NoRecordsMessage
      ensures old(records) != [] ==> records == SortNewestFirst(old(records))
      ensures old(records) != [] ==> view.Cards? && |view.cards| == |records|
      ensures old(records) != [] ==>
        forall i :: 0 <= i < |records| ==> view.Cards? && view.cards[i] == Card(records[i], ProgressionAt(records, i))
    {
      if |records| == 0 {
        return NoRecordsMessage;
      }
      records := SortNewestFirst(records);
      var cards := BuildCards(records);
      view := Cards(cards);
    }
  }
}
