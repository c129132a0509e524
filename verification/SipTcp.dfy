/** Reassembling SIP over TCP (SipTcpStream and TrySipTcp in SipTcp.cpp). */
module SipTcp {
  import opened AudioChunks
  import opened StreamCutting
  import opened StreamTable
  import opened SipFraming

  const DIALOG_STARTS: seq<string> := [
    "INVITE", "ACK", "BYE", "SIP/2.0 200", "SIP/2.0 183 Session Progress", "REFER", "INFO", "SUBSCRIBE",
    "SIP/2.0 302 Moved Temporarily", "NOTIFY", "SIP/2.0 4", "SIP/2.0 5", "SIP/2.0 6", "CANCEL "]
  const SIP_RESPONSE_SESSION_PROGRESS_SIZE := 28

  /** The payload opens a message of its own. */
  predicate StartsDialog(payload: string) {
    && |payload| >= SIP_RESPONSE_SESSION_PROGRESS_SIZE + 3
    && exists k :: 0 <= k < |DIALOG_STARTS| && DIALOG_STARTS[k] <= payload
  }

  /** The openings, one by one. */
  lemma {:induction false} OpensIff(payload: string)
    ensures StartsDialog(payload) <==>
            && |payload| >= 31
            && ("INVITE" <= payload || "ACK" <= payload || "BYE" <= payload || "REFER" <= payload || "INFO" <= payload
                || "SUBSCRIBE" <= payload || "NOTIFY" <= payload || "CANCEL " <= payload
                || "SIP/2.0 200" <= payload || "SIP/2.0 183 Session Progress" <= payload
                || "SIP/2.0 302 Moved Temporarily" <= payload
                || (payload[..8] == "SIP/2.0 " && payload[8] in "456"))
  {
    var d := DIALOG_STARTS;
    assert d[0] == "INVITE" && d[1] == "ACK" && d[2] == "BYE" && d[3] == "SIP/2.0 200";
    assert d[4] == "SIP/2.0 183 Session Progress" && d[5] == "REFER" && d[6] == "INFO" && d[7] == "SUBSCRIBE";
    assert d[8] == "SIP/2.0 302 Moved Temporarily" && d[9] == "NOTIFY" && d[13] == "CANCEL ";
    if |payload| >= 31 {
      FailureStarts(payload, d[10], '4');
      FailureStarts(payload, d[11], '5');
      FailureStarts(payload, d[12], '6');
    }
  }

  lemma {:induction false} FailureStarts(payload: string, start: string, digit: char)
    requires start == "SIP/2.0 " + [digit] && |payload| >= 10
    ensures start <= payload <==> payload[..8] == "SIP/2.0 " && payload[8] == digit
  {
    if start <= payload {
      assert payload[..9] == start && payload[..9][..8] == payload[..8];
    }
    assert payload[..9] == payload[..8] + [payload[8]];
  }

  /** Over every sequence of packets, retransmitted, overlapping or out of order as they may be, all
      streams, stored or done with, are stretches of the connections' byte streams, and the messages
      handed on for a well-framed one are those of a single ParseSipStream call on it. */
  lemma {:induction false} EveryArrivalOrder(bytes: (Connection, nat) -> char, arrivals: seq<Arrival>)
    requires forall i :: 0 <= i < |arrivals| ==> Carries(bytes, arrivals[i].packet)
    ensures var t := TableAfterAll(SIP, StartsDialog, Table([], []), arrivals);
            AllOk(SIP, Framed, bytes, t.stored) && AllOk(SIP, Framed, bytes, t.retired)
  {
    SipIsPrefixStable();
    StreamTable.EveryArrivalOrder(SIP, Framed, StartsDialog, bytes, Table([], []), arrivals);
  }
}
