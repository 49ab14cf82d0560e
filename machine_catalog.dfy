/** my-app/lib/machine-data.ts: the static catalog of the second variant and what holds of it. */
module MachineCatalog {
  import opened WorkoutTypes

  const Machines: seq<Machine> := [
    Machine("chest_press", "チェストプレス", "胸", 5, 100, 3, 60),
    Machine("lat_pull_down", "ラットプルダウン", "背中", 10, 80, 3, 60),
    Machine("leg_press", "レッグプレス", "脚", 20, 150, 3, 90),
    Machine("shoulder_press", "ショルダープレス", "肩", 5, 60, 3, 60),
    Machine("bicep_curl", "バイセップカール", "腕", 5, 40, 3, 45),
    Machine("leg_extension", "レッグエクステンション", "脚前", 10, 80, 3, 60)
  ]

  /** No two entries share an id. */
  ghost predicate DistinctIds(ms: seq<Machine>) {
    forall i, j :: 0 <= i < j < |ms| ==> ms[i].id != ms[j].id
  }

  /** A machine whose weight range is non-empty and whose bounds are multiples of 5. */
  predicate RangeOnGrid(m: Machine) {
    m.minWeight <= m.maxWeight && m.minWeight % 5 == 0 && m.maxWeight % 5 == 0
  }

  /** The catalog's ids are pairwise distinct. */
  lemma CatalogIdsDistinct()
    ensures DistinctIds(Machines)
  {
  }

  /**
   * Every entry: minWeight <= maxWeight, both multiples of 5, 3 default sets,
   * a positive default rest.
   */
  lemma CatalogEntriesValid()
    ensures forall m <- Machines :: RangeOnGrid(m) && m.defaultSets == 3 && m.defaultRestTime > 0
  {
  }
}
