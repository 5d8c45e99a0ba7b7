/** The status every queued event carries: Pending -> Processing -> Done (or Failed). */
module Status {
  datatype EventStatus = Pending | Processing | Done | Failed
}
