/**
 * The device table of src/components/DeviceTable.tsx: the sort-column state
 * machine behind the clickable headers, the comparator that sorts a copy of
 * the device list, and the colour chosen for a score and for a status.
 */
module DeviceTable {
  import opened Text
  import opened Seqs
  import opened MockData

  datatype SortKey = ByName | ByType | ByStatus | ByBehaviorScore
  datatype SortOrder = Asc | Desc
  datatype SortState = SortState(key: SortKey, order: SortOrder)

  /** `handleSort(key)`: the same column flips the order, another column sorts ascending. */
  function NextSort(s: SortState, key: SortKey): SortState
  {
    if s.key == key then SortState(key, if s.order == Asc then Desc else Asc)
    else SortState(key, Asc)
  }

  /**
   * A click always selects the clicked column; clicking the current column
   * flips the order, so two clicks restore the state; clicking another column
   * starts it ascending.
   */
  lemma NextSortSpec(s: SortState, key: SortKey)
    ensures NextSort(s, key).key == key
    ensures key == s.key ==> NextSort(s, key).order != s.order
    ensures key != s.key ==> NextSort(s, key).order == Asc
    ensures NextSort(NextSort(s, key), key) == if key == s.key then s else SortState(key, Desc)
  {
  }

  /** The sort state the table keeps (`sortKey`, `sortOrder`). */
  class DeviceTableState {
    var sortKey: SortKey
    var sortOrder: SortOrder

    /** Initially sorted by behaviour score, descending. */
    constructor()
      ensures sortKey == ByBehaviorScore && sortOrder == Desc
    {
      sortKey := ByBehaviorScore;
      sortOrder := Desc;
    }

    method HandleSort(key: SortKey)
      modifies this
      ensures SortState(sortKey, sortOrder) == NextSort(SortState(old(sortKey), old(sortOrder)), key)
    {
      if sortKey == key {
        sortOrder := if sortOrder == Asc then Desc else Asc;
      } else {
        sortKey := key;
        sortOrder := Asc;
      }
    }
  }

  // ------------------------------------------------------------ comparator

  /** The text a string column compares (the status is stored as its literal). */
  function KeyText(d: Device, key: SortKey): string
  {
    match key
    case ByName => d.name
    case ByType => d.deviceType
    case ByStatus => StatusName(d.status)
    case ByBehaviorScore => ""
  }

  /**
   * The comparator handed to `sort`: string columns compare by
   * `localeCompare` (here by code points), the score column by difference;
   * descending swaps the operands.
   */
  function Compare(key: SortKey, order: SortOrder, a: Device, b: Device): int
  {
    if key == ByBehaviorScore then
      (if order == Asc then a.behaviorScore - b.behaviorScore else b.behaviorScore - a.behaviorScore)
    else
      (if order == Asc then CompareStrings(KeyText(a, key), KeyText(b, key))
       else CompareStrings(KeyText(b, key), KeyText(a, key)))
  }

  /** Descending is exactly the reversed ascending comparison, for every column. */
  lemma DescReversesAsc(key: SortKey, a: Device, b: Device)
    ensures Compare(key, Desc, a, b) == -Compare(key, Asc, a, b)
  {
    if key != ByBehaviorScore {
      CompareAntisymmetric(KeyText(a, key), KeyText(b, key));
    }
  }

  /** `a` may precede `b` when the comparator does not put it after `b`. */
  function ComesFirst(key: SortKey, order: SortOrder): (Device, Device) -> bool
  {
    (a: Device, b: Device) => Compare(key, order, a, b) <= 0
  }

  lemma ComesFirstTotalPreorder(key: SortKey, order: SortOrder)
    ensures TotalPreorder(ComesFirst(key, order))
  {
    var le := ComesFirst(key, order);
    forall a: Device, b: Device ensures le(a, b) || le(b, a) {
      DescReversesAsc(key, a, b);
      DescReversesAsc(key, b, a);
      if key != ByBehaviorScore {
        CompareAntisymmetric(KeyText(a, key), KeyText(b, key));
      }
    }
    forall a: Device, b: Device, c: Device | le(a, b) && le(b, c) ensures le(a, c) {
      if key != ByBehaviorScore {
        if order == Asc {
          CompareTransitive(KeyText(a, key), KeyText(b, key), KeyText(c, key));
        } else {
          CompareTransitive(KeyText(c, key), KeyText(b, key), KeyText(a, key));
        }
      }
    }
  }

  /** `[...devices].sort(comparator)`: the stable sort of a copy. */
  function SortedDevices(devices: seq<Device>, key: SortKey, order: SortOrder): seq<Device>
  {
    SortBy(devices, ComesFirst(key, order))
  }

  /**
   * The sorted list is a permutation of the input, ordered by the selected
   * column: scores non-decreasing ascending and non-increasing descending,
   * texts in code-point order ascending and in reverse order descending.
   */
  lemma SortedDevicesSpec(devices: seq<Device>, key: SortKey, order: SortOrder)
    ensures var r := SortedDevices(devices, key, order);
      && |r| == |devices| && multiset(r) == multiset(devices)
      && (key == ByBehaviorScore && order == Asc ==>
            forall i, j :: 0 <= i < j < |r| ==> r[i].behaviorScore <= r[j].behaviorScore)
      && (key == ByBehaviorScore && order == Desc ==>
            forall i, j :: 0 <= i < j < |r| ==> r[i].behaviorScore >= r[j].behaviorScore)
      && (key != ByBehaviorScore && order == Asc ==>
            forall i, j :: 0 <= i < j < |r| ==> CompareStrings(KeyText(r[i], key), KeyText(r[j], key)) <= 0)
      && (key != ByBehaviorScore && order == Desc ==>
            forall i, j :: 0 <= i < j < |r| ==> CompareStrings(KeyText(r[i], key), KeyText(r[j], key)) >= 0)
  {
    ComesFirstTotalPreorder(key, order);
    SortBySorted(devices, ComesFirst(key, order));
    var r := SortedDevices(devices, key, order);
    if key != ByBehaviorScore && order == Desc {
      forall i, j | 0 <= i < j < |r|
        ensures CompareStrings(KeyText(r[i], key), KeyText(r[j], key)) >= 0
      {
        assert ComesFirst(key, order)(r[i], r[j]);
        CompareAntisymmetric(KeyText(r[i], key), KeyText(r[j], key));
      }
    }
  }

  /** Where a status lands in ascending alphabetical order: critical, safe, suspicious. */
  function AlphabeticalRank(s: Status): nat
  {
    match s
    case Critical => 0
    case Safe => 1
    case Suspicious => 2
  }

  /** Ascending by status is alphabetical order of the literals, not severity order. */
  lemma StatusSortIsAlphabetical(a: Device, b: Device)
    ensures Compare(ByStatus, Asc, a, b) < 0 <==> AlphabeticalRank(a.status) < AlphabeticalRank(b.status)
    ensures Compare(ByStatus, Asc, a, b) == 0 <==> a.status == b.status
  {
    assert CompareStrings("critical", "safe") < 0;
    assert CompareStrings("safe", "suspicious") < 0 by {
      assert CompareStrings("afe", "uspicious") < 0;
    }
    assert CompareStrings("critical", "suspicious") < 0;
    CompareAntisymmetric("critical", "safe");
    CompareAntisymmetric("safe", "suspicious");
    CompareAntisymmetric("critical", "suspicious");
  }

  // ---------------------------------------------------------------- colours

  datatype Tone = Red | Orange | Green

  /** `getScoreColor(score)`. */
  function ScoreColor(score: int): (t: Tone)
    ensures t == Red <==> score >= 70
    ensures t == Orange <==> 50 <= score < 70
    ensures t == Green <==> score < 50
  {
    if score >= 70 then Red else if score >= 50 then Orange else Green
  }

  /** `getStatusStyle(status)`: any string other than the two alarming ones is green. */
  function StatusStyle(status: string): (t: Tone)
    ensures t == Red <==> status == "critical"
    ensures t == Orange <==> status == "suspicious"
  {
    if status == "critical" then Red else if status == "suspicious" then Orange else Green
  }

  /**
   * For a generated device the score colour agrees with the status colour,
   * except that a suspicious score of 70 or more shows red.
   */
  lemma ColoursAgreeOnGeneratedDevice(s: Status, score: int)
    requires InStatusBand(s, score)
    ensures s != Suspicious ==> ScoreColor(score) == StatusStyle(StatusName(s))
    ensures s == Suspicious ==> ScoreColor(score) == (if score >= 70 then Red else Orange)
  {
  }
}
