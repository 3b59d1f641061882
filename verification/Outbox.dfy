/** What every index intent has: an operation and a status (app/models/index_outbox.py). */
module Outbox {
  datatype Operation = Upsert | Delete
  datatype Status = Pending | Finished | Blocked
}
