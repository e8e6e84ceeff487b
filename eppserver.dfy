// The test EPP server (epp/server/server.go): object lookups, server
// transaction IDs, the login policy of the "waiting for client
// authentication" state of section 2 of RFC 5730, and the availability
// answers of a check command.

module EppServer {
  import opened Common
  import opened EppResponse

  const CommandLoginType := "epp.command.login"
  const CommandCheckContactType := "epp.command.check.contact"
  const CommandCheckHostType := "epp.command.check.host"
  const CommandCheckDomainType := "epp.command.check.domain"

  const ErrNoContactFound := "no contact found"
  const ErrNoHostFound := "no host found"
  const ErrNoDomainFound := "no domain found"
  const ErrClientTimeout := "client timeout"
  const ErrNoTransactionFound := "no transaction found"

  /** maximumFailedLoginAttempts */
  const MaximumFailedLoginAttempts := 2

  datatype LoginObject = LoginObject(loginID: string, password: string, registrarID: string)

  /** The fields of the stored objects the lookups compare. */
  datatype ServerContact = ServerContact(contactRegistryID: string)
  datatype ServerHost = ServerHost(hostName: string)
  datatype ServerDomain = ServerDomain(domainName: string)

  /** EPPServer: the logins, the failure limit and the stored objects. */
  datatype Server = Server(
    logins: map<string, LoginObject>, maxFailedLoginAttempts: int,
    contacts: map<string, ServerContact>, hosts: map<string, ServerHost>, domains: map<string, ServerDomain>)

  // ---------------------------------------------------------------------
  // Lookups

  /** Some stored value has `wanted` as its key field. */
  predicate HasMatch<V>(m: map<string, V>, key: V -> string, wanted: string)
  {
    exists k :: k in m && key(m[k]) == wanted
  }

  /** The loop of the lookups: the first value met whose key field is
      `wanted`; map order is not fixed, so any matching value may come
      back. */
  method FirstMatch<V(==)>(m: map<string, V>, key: V -> string, wanted: string, notFound: string) returns (r: Result<V>)
    ensures r.Ok? ==> r.value in m.Values && key(r.value) == wanted
    ensures r.Err? <==> !HasMatch(m, key, wanted)
    ensures r.Err? ==> r.msg == notFound
  {
    var remaining := m.Keys;
    while remaining != {}
      invariant remaining <= m.Keys
      invariant forall k :: k in m && k !in remaining ==> key(m[k]) != wanted
      decreases remaining
    {
      var k := AnyElement(remaining);
      if key(m[k]) == wanted {
        return Ok(m[k]);
      }
      remaining := remaining - {k};
    }
    return Err(notFound);
  }

  predicate HasContact(srv: Server, id: string) { HasMatch(srv.contacts, (c: ServerContact) => c.contactRegistryID, id) }
  predicate HasHost(srv: Server, name: string) { HasMatch(srv.hosts, (h: ServerHost) => h.hostName, name) }
  predicate HasDomain(srv: Server, name: string) { HasMatch(srv.domains, (d: ServerDomain) => d.domainName, name) }

  /** ContactByID: a contact with that registry ID, or "no contact found". */
  method ContactByID(srv: Server, id: string) returns (r: Result<ServerContact>)
    ensures r.Ok? ==> r.value in srv.contacts.Values && r.value.contactRegistryID == id
    ensures r.Err? <==> !HasContact(srv, id)
    ensures r.Err? ==> r.msg == ErrNoContactFound
  {
    r := FirstMatch(srv.contacts, (c: ServerContact) => c.contactRegistryID, id, ErrNoContactFound);
  }

  /** HostByName: a host with that name, or "no host found". */
  method HostByName(srv: Server, name: string) returns (r: Result<ServerHost>)
    ensures r.Ok? ==> r.value in srv.hosts.Values && r.value.hostName == name
    ensures r.Err? <==> !HasHost(srv, name)
    ensures r.Err? ==> r.msg == ErrNoHostFound
  {
    r := FirstMatch(srv.hosts, (h: ServerHost) => h.hostName, name, ErrNoHostFound);
  }

  /** DomainByName: a domain with that name, or "no domain found". */
  method DomainByName(srv: Server, name: string) returns (r: Result<ServerDomain>)
    ensures r.Ok? ==> r.value in srv.domains.Values && r.value.domainName == name
    ensures r.Err? <==> !HasDomain(srv, name)
    ensures r.Err? ==> r.msg == ErrNoDomainFound
  {
    r := FirstMatch(srv.domains, (d: ServerDomain) => d.domainName, name, ErrNoDomainFound);
  }

  // ---------------------------------------------------------------------
  // Server transaction IDs

  /** "SRV-<connection ID>-<transaction counter>" */
  function ServerTXID(connectionID: int, txid: int): string
  {
    "SRV-" + IntToString(connectionID) + "-" + IntToString(txid)
  }

  /** Within a connection every counter value gives a different
      transaction ID, so a counter that only grows never repeats one. */
  lemma ServerTXIDInjective(connectionID: int, t1: int, t2: int)
    requires ServerTXID(connectionID, t1) == ServerTXID(connectionID, t2)
    ensures t1 == t2
  {
    var head := "SRV-" + IntToString(connectionID) + "-";
    assert ServerTXID(connectionID, t1) == head + IntToString(t1);
    assert ServerTXID(connectionID, t2) == head + IntToString(t2);
    assert IntToString(t1) == ServerTXID(connectionID, t1)[|head|..];
    assert IntToString(t2) == ServerTXID(connectionID, t2)[|head|..];
    IntToStringInjective(t1, t2);
  }

  /** Connections with different (not negative) IDs never share a
      transaction ID. */
  lemma ServerTXIDSeparatesConnections(c1: int, t1: int, c2: int, t2: int)
    requires c1 >= 0 && c2 >= 0
    requires ServerTXID(c1, t1) == ServerTXID(c2, t2)
    ensures c1 == c2 && t1 == t2
  {
    var d1, d2 := NatToString(c1), NatToString(c2);
    NatToStringNoColon(c1);
    NatToStringNoColon(c2);
    var s1, s2 := ServerTXID(c1, t1), ServerTXID(c2, t2);
    DashAfterNumber(d1, IntToString(t1));
    DashAfterNumber(d2, IntToString(t2));
    assert |d1| == |d2|;
    assert d1 == s1[4..4 + |d1|] && d2 == s2[4..4 + |d2|];
    NatToStringInjective(c1, c2);
    ServerTXIDInjective(c1, t1, t2);
  }

  lemma DashAfterNumber(d: string, rest: string)
    requires AllDigits(d)
    ensures var s := "SRV-" + d + "-" + rest;
      s[4 + |d|] == '-' && forall k :: 4 <= k < 4 + |d| ==> s[k] != '-'
  {
    var s := "SRV-" + d + "-" + rest;
    assert forall k :: 4 <= k < 4 + |d| ==> s[k] == d[k - 4];
  }

  // ---------------------------------------------------------------------
  // Messages, replies and states

  /** The parts of a received message the handlers read: its message
      type, the client transaction ID (None when it carries no command),
      the login's client ID and password, and the ID lists of the check
      elements of a check command. */
  datatype Command = Command(
    messageType: string, clientTXID: Option<string>,
    clientID: string, password: string, checkIDs: seq<seq<string>>)

  /** What the handler waits for: a message, or the timeout. */
  datatype Input = Received(msg: Command) | TimedOut

  /** EPPServerState */
  datatype ServerState = PrepareGreeting | WaitingForClient | WaitingForCommand | CloseConnection

  /** One availability answer of a check response. */
  datatype CheckResult = CheckResult(value: string, available: int)

  /** The response written: transaction IDs, result code and message,
      and the availability answers of a check. */
  datatype Reply = Reply(clientTXID: string, serverTXID: string, code: int, msg: string, checked: seq<CheckResult>)

  /** GetTransactionID with its error ignored. */
  function ClientTXIDOrEmpty(c: Command): string
  {
    if c.clientTXID.Some? then c.clientTXID.value else ""
  }

  // ---------------------------------------------------------------------
  // The login policy

  /** How HandleWaitingForClient answers a message. */
  datatype Verdict = Accepted | Rejected | RejectedClosing | UseError

  /** The password stored for a login ID: the zero LoginObject's empty
      password when there is no such login. */
  function StoredPassword(logins: map<string, LoginObject>, id: string): string
  {
    if id in logins then logins[id].password else ""
  }

  function LoginVerdict(srv: Server, failed: int, c: Command): Verdict
  {
    if c.messageType != CommandLoginType then UseError
    else if StoredPassword(srv.logins, c.clientID) == c.password then Accepted
    else if failed >= srv.maxFailedLoginAttempts then RejectedClosing
    else Rejected
  }

  function VerdictCode(v: Verdict): int
  {
    match v
    case Accepted => ResponseCodeCommandSuccessful
    case Rejected => ResponseCodeAuthenticationError
    case RejectedClosing => ResponseCodeAuthorizationErrorClosing
    case UseError => ResponseCodeCommandUseError
  }

  /** The result message written with each answer. */
  function VerdictMessage(v: Verdict): string
  {
    match v
    case Accepted => "Command completed successfully"
    case Rejected => "Authentication error"
    case RejectedClosing => "Authentication error; server closing connection"
    case UseError => "Command use error"
  }

  /** Each answer carries a result code of section 3 of RFC 5730 with its
      message; only the login is a success, and only the two closing
      answers leave the session. */
  lemma VerdictCodesStandard(v: Verdict)
    ensures VerdictCode(v) in ResponseCodeMessages && ResponseCodeMessages[VerdictCode(v)] == VerdictMessage(v)
    ensures VerdictCode(v) < 2000 <==> v == Accepted
    ensures NextState(v) == CloseConnection <==> v in {RejectedClosing, UseError}
  {
  }

  /** The login a successful login records: the zero LoginObject when the
      ID has none. */
  function LoginFor(logins: map<string, LoginObject>, id: string): LoginObject
  {
    if id in logins then logins[id] else LoginObject("", "", "")
  }

  function NextState(v: Verdict): ServerState
  {
    match v
    case Accepted => WaitingForCommand
    case Rejected => WaitingForClient
    case RejectedClosing => CloseConnection
    case UseError => CloseConnection
  }

  function FailedAfter(v: Verdict, failed: int): int
  {
    if v == Rejected then failed + 1 else failed
  }

  /** The answers to a run of messages while the server waits for the
      client to log in: the run ends with the first answer that leaves
      the state. */
  function LoginRun(srv: Server, failed: int, msgs: seq<Command>): seq<Verdict>
    decreases |msgs|
  {
    if msgs == [] then []
    else
      var v := LoginVerdict(srv, failed, msgs[0]);
      if NextState(v) == WaitingForClient then [v] + LoginRun(srv, FailedAfter(v, failed), msgs[1..])
      else [v]
  }

  /** The right password logs in whatever the counter says, and a login
      ID with no login behind it takes the empty password. */
  lemma MatchingPasswordAccepted(srv: Server, failed: int, c: Command)
    requires c.messageType == CommandLoginType
    ensures LoginVerdict(srv, failed, c) == Accepted <==> StoredPassword(srv.logins, c.clientID) == c.password
    ensures c.clientID !in srv.logins && c.password == "" ==> LoginVerdict(srv, failed, c) == Accepted
    ensures LoginVerdict(srv, failed, c) == Accepted ==>
      VerdictCode(Accepted) == 1000 && NextState(Accepted) == WaitingForCommand
  {
  }

  /** Any other command before login is a command use error that ends
      the session. */
  lemma NonLoginCloses(srv: Server, failed: int, c: Command)
    requires c.messageType != CommandLoginType
    ensures LoginVerdict(srv, failed, c) == UseError
    ensures VerdictCode(UseError) == 2002 && NextState(UseError) == CloseConnection
  {
  }

  /** Wrong passwords from a counter at `failed` are answered 2200 until
      the counter reaches the maximum, and the next one with 2501, which
      closes the session: with the maximum of 2, two 2200s then a 2501. */
  lemma {:induction false} WrongPasswordsThenClose(srv: Server, failed: int, msgs: seq<Command>)
    requires 0 <= failed <= srv.maxFailedLoginAttempts
    requires |msgs| > srv.maxFailedLoginAttempts - failed
    requires forall i :: 0 <= i < |msgs| ==>
      msgs[i].messageType == CommandLoginType && msgs[i].password != StoredPassword(srv.logins, msgs[i].clientID)
    ensures LoginRun(srv, failed, msgs) ==
      seq(srv.maxFailedLoginAttempts - failed, _ => Rejected) + [RejectedClosing]
    decreases srv.maxFailedLoginAttempts - failed
  {
    if failed < srv.maxFailedLoginAttempts {
      assert LoginVerdict(srv, failed, msgs[0]) == Rejected;
      var rest := msgs[1..];
      assert forall i :: 0 <= i < |rest| ==> rest[i] == msgs[i + 1];
      WrongPasswordsThenClose(srv, failed + 1, rest);
      assert [Rejected] + seq(srv.maxFailedLoginAttempts - failed - 1, _ => Rejected)
        == seq(srv.maxFailedLoginAttempts - failed, _ => Rejected);
    } else {
      assert LoginVerdict(srv, failed, msgs[0]) == RejectedClosing;
    }
  }

  // ---------------------------------------------------------------------
  // Check answers

  /** The stored object a check command asks about exists. */
  predicate Known(srv: Server, messageType: string, id: string)
  {
    if messageType == CommandCheckContactType then HasContact(srv, id)
    else if messageType == CommandCheckHostType then HasHost(srv, id)
    else HasDomain(srv, id)
  }

  predicate IsCheckType(messageType: string)
  {
    messageType in {CommandCheckContactType, CommandCheckHostType, CommandCheckDomainType}
  }

  /** Each ID with 1 when nothing matches it and 0 otherwise. */
  function Checked(srv: Server, messageType: string, ids: seq<string>): seq<CheckResult>
  {
    seq(|ids|, i requires 0 <= i < |ids| => CheckResult(ids[i], if Known(srv, messageType, ids[i]) then 0 else 1))
  }

  /** The IDs of all check elements, in order. */
  function Flatten(groups: seq<seq<string>>): seq<string>
  {
    if groups == [] then [] else Flatten(groups[..|groups| - 1]) + groups[|groups| - 1]
  }

  /** The answers are one per asked ID, in order, and an ID is available
      exactly when no stored object matches it. */
  lemma CheckedMeaning(srv: Server, messageType: string, ids: seq<string>)
    ensures |Checked(srv, messageType, ids)| == |ids|
    ensures forall i :: 0 <= i < |ids| ==>
      Checked(srv, messageType, ids)[i].value == ids[i]
      && (Checked(srv, messageType, ids)[i].available == 1 <==> !Known(srv, messageType, ids[i]))
      && (Checked(srv, messageType, ids)[i].available == 0 <==> Known(srv, messageType, ids[i]))
  {
  }

  /** The answer for one ID, from the lookup of its kind. */
  method CheckOne(srv: Server, messageType: string, id: string) returns (r: CheckResult)
    requires IsCheckType(messageType)
    ensures r == CheckResult(id, if Known(srv, messageType, id) then 0 else 1)
  {
    var found: bool;
    if messageType == CommandCheckContactType {
      var c := ContactByID(srv, id);
      found := c.Ok?;
    } else if messageType == CommandCheckHostType {
      var h := HostByName(srv, id);
      found := h.Ok?;
    } else {
      var d := DomainByName(srv, id);
      found := d.Ok?;
    }
    r := CheckResult(id, if found then 0 else 1);
  }

  /** The loops of generateCheckResponseObject over the check elements
      and their IDs. */
  method CheckAll(srv: Server, messageType: string, groups: seq<seq<string>>) returns (items: seq<CheckResult>)
    requires IsCheckType(messageType)
    ensures items == Checked(srv, messageType, Flatten(groups))
  {
    items := [];
    for g := 0 to |groups|
      invariant items == Checked(srv, messageType, Flatten(groups[..g]))
    {
      assert groups[..g + 1][..g] == groups[..g];
      ghost var before := Flatten(groups[..g]);
      for j := 0 to |groups[g]|
        invariant items == Checked(srv, messageType, before + groups[g][..j])
      {
        var one := CheckOne(srv, messageType, groups[g][j]);
        assert (before + groups[g][..j + 1]) == (before + groups[g][..j]) + [groups[g][j]];
        items := items + [one];
      }
      assert groups[g][..|groups[g]|] == groups[g];
    }
    assert groups[..|groups|] == groups;
  }

  // ---------------------------------------------------------------------
  // The connection

  /** EPPServerConnection. `written` is what has been written to the
      socket; `closed` records that the socket was closed. */
  class Connection {
    const conf: Server
    const connectionID: int
    var txid: int
    var failedLoginAttempts: int
    var loggedIn: Option<LoginObject>
    var written: seq<Reply>
    var closed: bool

    /** A connection as Start accepts it: the counter starts at 1. */
    constructor (conf: Server, connectionID: int)
      ensures this.conf == conf && this.connectionID == connectionID
      ensures txid == 1 && failedLoginAttempts == 0 && loggedIn == None && written == [] && !closed
    {
      this.conf := conf;
      this.connectionID := connectionID;
      txid := 1;
      failedLoginAttempts := 0;
      loggedIn := None;
      written := [];
      closed := false;
    }

    /** GetNextTransactionID: the ID for the current counter, which then
        goes up by exactly one. */
    method GetNextTransactionID() returns (r: string)
      modifies this`txid
      ensures r == ServerTXID(connectionID, old(txid)) && txid == old(txid) + 1
    {
      r := ServerTXID(connectionID, txid);
      txid := txid + 1;
    }

    /** WriteEPP: `writeErr` is the socket's answer; a failed write is not
        recorded. */
    method WriteEPP(reply: Reply, writeErr: Option<string>) returns (err: Option<string>)
      modifies this`written
      ensures err == writeErr
      ensures written == if writeErr.None? then old(written) + [reply] else old(written)
    {
      if writeErr.None? {
        written := written + [reply];
      }
      err := writeErr;
    }

    /** HandleWaitingForClient, with the message or the timeout as input
        and `writeErr` as the outcome of writing the reply. */
    method HandleWaitingForClient(input: Input, writeErr: Option<string>) returns (state: ServerState, err: Option<string>)
      modifies this
      ensures input.TimedOut? ==>
        state == WaitingForClient && err == Some(ErrClientTimeout) && closed
        && txid == old(txid) && failedLoginAttempts == old(failedLoginAttempts)
        && loggedIn == old(loggedIn) && written == old(written)
      ensures input.Received? ==>
        var v := LoginVerdict(conf, old(failedLoginAttempts), input.msg);
        txid == old(txid) + 1 && closed == old(closed) && err == writeErr
        && state == (if writeErr.None? then NextState(v) else WaitingForClient)
        && failedLoginAttempts == (if writeErr.None? then FailedAfter(v, old(failedLoginAttempts)) else old(failedLoginAttempts))
        && loggedIn == (if writeErr.None? && v == Accepted then Some(LoginFor(conf.logins, input.msg.clientID)) else old(loggedIn))
        && written == old(written) + (if writeErr.None? then
             [Reply(ClientTXIDOrEmpty(input.msg), ServerTXID(connectionID, old(txid)), VerdictCode(v), VerdictMessage(v), [])]
           else [])
    {
      state := WaitingForClient;
      if input.TimedOut? {
        closed := true;
        return state, Some(ErrClientTimeout);
      }
      var msg := input.msg;
      var v := LoginVerdict(conf, failedLoginAttempts, msg);
      var srvtxid := GetNextTransactionID();
      err := WriteEPP(Reply(ClientTXIDOrEmpty(msg), srvtxid, VerdictCode(v), VerdictMessage(v), []), writeErr);
      if err.Some? {
        return state, err;
      }
      state := NextState(v);
      if v == Rejected {
        failedLoginAttempts := failedLoginAttempts + 1;
      } else if v == Accepted {
        loggedIn := Some(LoginFor(conf.logins, msg.clientID));
      }
    }

    /** generateCheckResponseObject: a message without a command has no
        transaction ID and is refused before the counter moves; otherwise
        a 1000 reply carries the availability of every asked ID (none for
        a message that is not a check). */
    method GenerateCheckResponse(msg: Command, writeErr: Option<string>) returns (err: Option<string>)
      modifies this`txid, this`written
      ensures msg.clientTXID.None? ==>
        err == Some("transaction id not available: " + ErrNoTransactionFound)
        && txid == old(txid) && written == old(written)
      ensures msg.clientTXID.Some? ==>
        txid == old(txid) + 1 && err == writeErr
        && written == old(written) + (if writeErr.None? then
             [Reply(msg.clientTXID.value, ServerTXID(connectionID, old(txid)), 1000, "Command completed successfully",
                    if IsCheckType(msg.messageType) then Checked(conf, msg.messageType, Flatten(msg.checkIDs)) else [])]
           else [])
    {
      if msg.clientTXID.None? {
        return Some("transaction id not available: " + ErrNoTransactionFound);
      }
      var srvtxid := GetNextTransactionID();
      var items: seq<CheckResult> := [];
      if IsCheckType(msg.messageType) {
        items := CheckAll(conf, msg.messageType, msg.checkIDs);
      }
      err := WriteEPP(Reply(msg.clientTXID.value, srvtxid, ResponseCodeCommandSuccessful, "Command completed successfully", items), writeErr);
    }
  }
}
