/**
 * Storage descriptors shared by the task form and the export dialog: a
 * location ('local' or 'cloud_storage') and, for cloud storage, the id of
 * the cloud storage entry.
 */
module Storage {
  import opened Common

  datatype StorageLocation = Local | CloudStorage

  /** The string value of the location enum. */
  function LocationValue(l: StorageLocation): string
  {
    match l
    case Local => "local"
    case CloudStorage => "cloud_storage"
  }

  datatype StorageData = StorageData(location: StorageLocation, cloudStorageId: Option<int>)

  /** `{ location: StorageLocation.LOCAL }`, with no cloud storage id. */
  const LocalStorage: StorageData := StorageData(Local, None)
}
