/** Values shared by every screen of the LaunchPad front end (types.ts). */
module Types {

  datatype Option<+T> = None | Some(value: T)

  /** The four top-level screens; exactly one is current at any time. */
  datatype View = Landing | Auth | Dashboard | Settings

  /** The string value each member of the View enum carries at run time. */
  function ViewName(v: View): string
  {
    match v
    case Landing => "LANDING"
    case Auth => "AUTH"
    case Dashboard => "DASHBOARD"
    case Settings => "SETTINGS"
  }
}
