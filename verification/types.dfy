/** The record shape of one showcased application (types/index.ts). */
module Types {
  import opened Wrappers

  /** `AppStatus`: a closed union of three string literals. */
  datatype AppStatus = Successful | InProgress | Failed

  /** `AppType`: a closed union of two string literals. */
  datatype AppType = Web | Ios

  /** One row of the `apps` collection. `url`, `app_store_url` and `image_url`
      are optional; the other fields are always present. */
  datatype App = App(
    id: string,
    name: string,
    description: string,
    status: AppStatus,
    appType: AppType,
    url: Option<string>,
    appStoreUrl: Option<string>,
    imageUrl: Option<string>,
    createdAt: string)

  /** The string literal each status stands for at run time. The union is
      exactly the three literals: each status reads back as itself. */
  function StatusName(status: AppStatus): (name: string)
    ensures ParseStatus(name) == Some(status)
  {
    match status
    case Successful => "successful"
    case InProgress => "in-progress"
    case Failed => "failed"
  }

  /** Reads a string as a status: exactly the three literals of the union
      are statuses. */
  function ParseStatus(s: string): (r: Option<AppStatus>)
    ensures r.Some? <==> s == "successful" || s == "in-progress" || s == "failed"
  {
    if s == "successful" then Some(Successful)
    else if s == "in-progress" then Some(InProgress)
    else if s == "failed" then Some(Failed)
    else None
  }

  /** A string read as a status is that status's literal. */
  lemma ParseStatusInverse(s: string)
    ensures ParseStatus(s).Some? ==> StatusName(ParseStatus(s).value) == s
  {
  }

  lemma StatusNamesDistinct(a: AppStatus, b: AppStatus)
    ensures StatusName(a) == StatusName(b) <==> a == b
  {
  }

  /** The string literal each type stands for at run time; each type reads
      back as itself. */
  function TypeName(t: AppType): (name: string)
    ensures ParseType(name) == Some(t)
  {
    match t
    case Web => "web"
    case Ios => "ios"
  }

  /** Reads a string as an app type: exactly `web` and `ios` are types. */
  function ParseType(s: string): (r: Option<AppType>)
    ensures r.Some? <==> s == "web" || s == "ios"
  {
    if s == "web" then Some(Web)
    else if s == "ios" then Some(Ios)
    else None
  }

  /** A string read as a type is that type's literal. */
  lemma ParseTypeInverse(s: string)
    ensures ParseType(s).Some? ==> TypeName(ParseType(s).value) == s
  {
  }
}
