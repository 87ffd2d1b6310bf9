/** The replication package's trigger kinds. */
module Replication {
  datatype TriggerKind = KindManual | KindImmediate | KindSchedule | KindOther(name: string)
}
