/** `migrate_0_6_0` of the migrations package: nothing changes on disk, the
    version moves on to 0.7.0. It takes no file system. */
module Migration060 {
  import opened Wrappers
  import opened JsonValue
  import opened MigrationSteps

  /** Metadata at another version comes back as it is; at 0.6.0 a copy
      with version 0.7.0 and every other key as it was is returned. */
  function Migrate(metadata: Object): (r: Result<Object>)
    ensures "version" !in metadata ==> r == Err(KeyError("version"))
    ensures "version" in metadata && metadata["version"] != Str("0.6.0") ==> r == Ok(metadata)
    ensures "version" in metadata && metadata["version"] == Str("0.6.0") ==>
      r.Ok? && r.value.Keys == metadata.Keys && r.value["version"] == Str("0.7.0") &&
      forall k :: k in metadata && k != "version" ==> r.value[k] == metadata[k]
  {
    VersionOnly(metadata, "0.6.0", "0.7.0")
  }
}
