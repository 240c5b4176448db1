/** What every storage migration step shares: it looks at the storage
    metadata's "version", does nothing unless that is the step's own
    version, and otherwise hands back metadata carrying the next version.
    The steps are the functions `migrate_0_1_0` ... `migrate_0_6_0` of the
    migrations package and the inline `migrate_0_1_0` / `migrate_0_2_0` of
    `Storage`. */
module MigrationSteps {
  import opened Wrappers
  import opened JsonValue

  /** The storage format versions, oldest first; each step takes one of
      them to the next. */
  const Versions: seq<string> := ["0.1.0", "0.2.0", "0.3.0", "0.4.0", "0.5.0", "0.6.0", "0.7.0"]

  /** `metadata["version"] == own`; KeyError without a version. */
  function AtVersion(metadata: Object, own: string): (r: Result<bool>)
    ensures r.Ok? <==> "version" in metadata
    ensures r.Ok? ==> (r.value <==> metadata["version"] == Str(own))
    ensures r.Err? ==> r.error == KeyError("version")
  {
    var v :- Get(metadata, "version");
    Ok(v == Str(own))
  }

  /** The version a step leaves behind: its own version becomes the next
      one, every other version stays. */
  function StepVersion(own: string, next: string, v: Value): Value {
    if v == Str(own) then Str(next) else v
  }

  /** `dict(metadata, version=next)` when the version is `own`, the
      metadata itself otherwise: the whole of a step that has nothing to
      convert on disk. */
  function VersionOnly(metadata: Object, own: string, next: string): (r: Result<Object>)
    ensures r.Ok? <==> "version" in metadata
    ensures r.Err? ==> r.error == KeyError("version")
    ensures r.Ok? ==> r.value.Keys == metadata.Keys
    ensures r.Ok? ==> r.value["version"] == StepVersion(own, next, metadata["version"])
    ensures r.Ok? ==> forall k :: k in metadata && k != "version" ==> r.value[k] == metadata[k]
  {
    var at :- AtVersion(metadata, own);
    if !at then Ok(metadata) else Ok(With(metadata, "version", Str(next)))
  }

  /** The versions after applying the steps k, k+1, ..., 5 in turn. */
  function Ascending(v: Value, k: nat): Value
    requires k <= 6
    decreases 6 - k
  {
    if k == 6 then v else Ascending(StepVersion(Versions[k], Versions[k + 1], v), k + 1)
  }

  /** Each step maps exactly one version to its successor, so running the
      steps once in ascending order brings any known version from the k-th
      on to the latest one, "0.7.0". */
  lemma {:induction false} AscendingReachesLatest(i: nat, k: nat)
    requires k <= i < |Versions|
    ensures Ascending(Str(Versions[i]), k) == Str("0.7.0")
    decreases 6 - k
  {
    if k < 6 {
      if i == k {
        AscendingReachesLatest(k + 1, k + 1);
      } else {
        assert Versions[i] != Versions[k];
        AscendingReachesLatest(i, k + 1);
      }
    }
  }

  /** A version the steps do not know is never changed by them. */
  lemma {:induction false} AscendingKeepsUnknown(v: Value, k: nat)
    requires k <= 6
    requires forall i :: 0 <= i < |Versions| ==> v != Str(Versions[i])
    ensures Ascending(v, k) == v
    decreases 6 - k
  {
    if k < 6 {
      assert v != Str(Versions[k]);
      AscendingKeepsUnknown(v, k + 1);
    }
  }
}
