// types.ReportCheck: the counters and messages of one check of the index.
module Report {
  // The failures of a check are `checked - passed`.
  class ReportCheck<Message> {
    var visited: nat
    var checked: nat
    var passed: nat
    var messages: seq<Message>

    constructor ()
      ensures visited == checked == passed == 0 && messages == []
    {
      visited, checked, passed, messages := 0, 0, 0, [];
    }
  }
}
