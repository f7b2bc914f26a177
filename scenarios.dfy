/**
 * Calls a client makes, with the service's replies fixed in advance; each
 * assertion is what the contracts of the client guarantee for that call.
 */
module Scenarios {
  import opened Wrappers
  import opened Php
  import opened Api
  import opened SrFax

  /** A nine-digit recipient is refused before anything is sent. */
  method QueueShortRecipient(wire: Wire) {
    var client := new Client("12345", "secret", "", "5550001111", "faxes@example.com");
    var r, sent := client.QueueFax("555123456", map[], "", "", "SINGLE", wire);
    assert r == Failure(BadRecipient) && sent == None;
  }

  /** Stopping a fax the service cannot cancel still returns its whole reply. */
  method StopUncancellableFax() {
    var client := new Client("12345", "secret", "", "", "");
    var decoded := JObj(map["Status" := JStr("Failed"), "Result" := JStr("Unable to Cancel Fax")]);
    var wire := Wire(req => Body("{\"Status\":\"Failed\",\"Result\":\"Unable to Cancel Fax\"}"), text => decoded, text => text);
    var r, sent := client.StopFax("100", wire);
    assert r == Success(decoded);
    assert Member(r.value, "Result") == JStr("Unable to Cancel Fax");
  }

  /** A pipe-separated list of ids selects the multi-fax status query. */
  method StatusOfSeveralFaxes(wire: Wire) {
    var client := new Client("12345", "secret", "", "", "");
    var r, sent := client.GetFaxStatus("100|200|300", wire);
    assert '|' in "100|200|300";
    client.CarriedFields(sent.value, map[], "Get_MultiFaxStatus", map["sFaxDetailsID" := "100|200|300"]);
    assert sent.value.params["action"] == "Get_MultiFaxStatus";
    assert sent.value.params["sFaxDetailsID"] == "100|200|300";
  }

  /** Asking twice for the same status against the same service gives the same answer. */
  method StatusIsRepeatable(client: Client, id: string, wire: Wire) {
    var r1, sent1 := client.GetFaxStatus(id, wire);
    var r2, sent2 := client.GetFaxStatus(id, wire);
    client.CarriedFields(sent1.value, map[], if '|' in id then "Get_MultiFaxStatus" else "Get_FaxStatus",
                         map["sFaxDetailsID" := id]);
    client.CarriedFields(sent2.value, map[], if '|' in id then "Get_MultiFaxStatus" else "Get_FaxStatus",
                         map["sFaxDetailsID" := id]);
    assert sent1.value.params == sent2.value.params;
    assert r1 == r2;
  }

  /** An empty body fails every call, here a deletion named in lower case. */
  method DeleteWithEmptyReply(jsonDecode: string -> Json) {
    var client := new Client("12345", "secret", "", "", "");
    var wire := Wire(req => Body(""), jsonDecode, text => text);
    UpperMatchesIgnoringCase("in", "IN");
    assert IsDirection(Upper("in"));
    var r, sent := client.DeleteFax("in", "100", "", map[], wire);
    assert sent.Some?;
    EmptyBodyFails("", jsonDecode, false);
    assert r == Failure(EmptyResponse);
  }
}
