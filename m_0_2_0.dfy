/** `migrate_0_2_0` of the migrations package: the 0.2.0 format needs no
    conversion on disk, so the step only moves the version on to 0.3.0. It
    takes no file system: the storage directory is never touched. */
module Migration020 {
  import opened Wrappers
  import opened JsonValue
  import opened MigrationSteps

  /** Metadata at another version comes back as it is; at 0.2.0 a copy
      with version 0.3.0 and every other key as it was is returned. */
  function Migrate(metadata: Object): (r: Result<Object>)
    ensures "version" !in metadata ==> r == Err(KeyError("version"))
    ensures "version" in metadata && metadata["version"] != Str("0.2.0") ==> r == Ok(metadata)
    ensures "version" in metadata && metadata["version"] == Str("0.2.0") ==>
      r.Ok? && r.value.Keys == metadata.Keys && r.value["version"] == Str("0.3.0") &&
      forall k :: k in metadata && k != "version" ==> r.value[k] == metadata[k]
  {
    VersionOnly(metadata, "0.2.0", "0.3.0")
  }
}
