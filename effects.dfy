/** The outside-world effects the components cause, recorded in order instead of performed:
    downloads, CSV/YAML reads and writes, directory listings, object loads and `aws s3 sync` runs. */
module Effects {
  import Frames

  /** One `aws s3 sync` command: push a local folder to a bucket URL, or pull a URL into a folder. */
  datatype Sync = ToS3(folder: string, url: string) | FromS3(url: string, folder: string)
  {
    /** The same folder/URL pair synchronised the other way. */
    function Reversed(): Sync
    {
      match this
      case ToS3(f, u) => FromS3(u, f)
      case FromS3(u, f) => ToS3(f, u)
    }
  }

  datatype Event =
    | Download(url: string, path: string)
    | ReadCsv(path: string)
    | WriteCsv(path: string, table: Frames.Table)
    | WriteYaml(path: string)
    | ListDir(path: string)
    | LoadObject(path: string)
    | Synced(sync: Sync)
}
