/** What both sets of verbs hooks share. */
module Verbs {
  datatype QpType = RC | UC | UD | OtherType

  /** The configured restrictions; other types are always allowed. */
  datatype AllowedTypes = AllowedTypes(rc: bool, uc: bool, ud: bool)

  predicate Allows(types: AllowedTypes, t: QpType) {
    (t.RC? ==> types.rc) && (t.UC? ==> types.uc) && (t.UD? ==> types.ud)
  }

  /** The counters of `g_intercept_state`. */
  datatype Local = Local(qp: int, mr: int, mem: int)

  /** `Denied` is EPERM from a check, `DriverError` a failed driver call. */
  datatype Outcome = Denied | DriverError | Done
}
