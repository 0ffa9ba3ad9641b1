/** The client side of the SYN handshake: optionally run the encryption
    sub-handshake, then send a SYN and wait for the server's, retrying on
    receive timeouts, and finally take the server's session name, command
    flag and initial sequence into the connection.

    The asynchronous transport is replaced by a script: each round is one
    `Exchange`, either a failed send or the outcome of the receive that
    follows a successful send; the SYNs that were sent are logged. */
module Handshake {
  import opened Common
  import opened Parse
  import opened Packets

  /** The connection errors the handshake produces or passes on. `Transport`
      stands for every error of the transport or of the encryption layer;
      `Closed` is what the scripted transport answers once its script is
      used up. */
  datatype ConnectionError =
    | Timeout
    | Unexpected(body: SupportedSessionBody)
    | EncryptionMismatch
    | Transport(code: nat)
    | Closed

  /** One round of the scripted transport. */
  datatype Exchange =
    | SendFailed(error: ConnectionError)
    | Received(reply: Result<SupportedSessionBody, ConnectionError>)

  /** The connection fields the handshake reads and writes. */
  datatype ConnState = ConnState(
    selfSeq: Sequence,
    peerSeq: Sequence,
    sessName: Option<Str>,
    command: bool,
    encrypted: bool,
    recvMaxRetry: nat)

  /** `set_session_name` panics on an empty name, so a name the client
      sends must not be empty. */
  predicate NameSendable(name: Option<Str>) {
    name.Some? ==> |name.value| > 0
  }

  //////////////////////////////////////////////////////////////////////////
  // Specification of one handshake

  /** The SYN every attempt sends. */
  function ClientSyn(st: ConnState): (s: SynBody)
    requires NameSendable(st.sessName)
    ensures s.initSeq == st.selfSeq
    ensures s.flags[COMMAND] == st.command && s.flags[ENCRYPTED] == st.encrypted
    ensures SessionName(s) == st.sessName
    ensures forall i :: 0 <= i < FLAG_COUNT && i !in {NAME, COMMAND, ENCRYPTED} ==> !s.flags[i]
  {
    var syn := SynNew(st.selfSeq, st.command, st.encrypted);
    if st.sessName.Some? then SetSessionName(syn, st.sessName.value).0 else syn
  }

  /** How the retry loop ends. */
  datatype LoopEnd = ServerSyn(syn: SynBody) | Stopped(error: ConnectionError)

  /** The end of the loop, the rounds of the script it used and the SYNs it
      sent. */
  datatype LoopRun = LoopRun(end: LoopEnd, rounds: nat, sent: nat)

  /** What one round decides when it does not ask for a retry. */
  function Verdict(x: Exchange): LoopEnd {
    match x
    case SendFailed(e) => Stopped(e)
    case Received(Ok(Syn(s))) => ServerSyn(s)
    case Received(Ok(body)) => Stopped(Unexpected(body))
    case Received(Err(e)) => Stopped(e)
  }

  predicate IsTimeout(x: Exchange) {
    x == Received(Err(Timeout))
  }

  function Later(r: LoopRun, k: nat): LoopRun {
    r.(rounds := r.rounds + k, sent := r.sent + k)
  }

  /** The loop, from attempt number `attempt` on: a receive timeout is
      retried unless it was attempt `maxRetry`. */
  function RetryLoop(script: seq<Exchange>, attempt: nat, maxRetry: nat): (r: LoopRun)
    ensures r.rounds <= |script| && r.sent <= r.rounds
    decreases |script|
  {
    if script == [] then LoopRun(Stopped(Closed), 0, 0)
    else if IsTimeout(script[0]) && attempt != maxRetry then
      Later(RetryLoop(script[1..], attempt + 1, maxRetry), 1)
    else
      LoopRun(Verdict(script[0]), 1, if script[0].SendFailed? then 0 else 1)
  }

  /** The server's name is taken when it has one and the client either has
      none or prefers the server's. */
  function AdoptName(local: Option<Str>, preferServerName: bool, server: SynBody): Option<Str> {
    if (local.None? || preferServerName) && SessionName(server).Some? then SessionName(server) else local
  }

  /** The connection, the result, and the script rounds and SYNs used. */
  datatype Outcome = Outcome(state: ConnState, result: Result<(), ConnectionError>, rounds: nat, sent: nat)

  /** `client_handshake`, with `encStep` the outcome of the encryption
      sub-handshake (`None` when it succeeds). */
  function ClientHandshakeSpec(st: ConnState, preferServerName: bool, encStep: Option<ConnectionError>,
                               script: seq<Exchange>): Outcome
  {
    if st.encrypted && encStep.Some? then Outcome(st, Err(encStep.value), 0, 0)
    else
      var run := RetryLoop(script, 1, st.recvMaxRetry);
      match run.end
      case Stopped(e) => Outcome(st, Err(e), run.rounds, run.sent)
      case ServerSyn(s) =>
        var st1 := st.(sessName := AdoptName(st.sessName, preferServerName, s), command := s.flags[COMMAND]);
        if st.encrypted != s.flags[ENCRYPTED] then Outcome(st1, Err(EncryptionMismatch), run.rounds, run.sent)
        else Outcome(st1.(peerSeq := s.initSeq), Ok(()), run.rounds, run.sent)
  }

  //////////////////////////////////////////////////////////////////////////
  // What the handshake promises

  /** The first `n` rounds are all receive timeouts. */
  predicate Timeouts(script: seq<Exchange>, n: nat) {
    n <= |script| && forall i :: 0 <= i < n ==> IsTimeout(script[i])
  }

  lemma {:induction false} RetryLoopTimeouts(script: seq<Exchange>, attempt: nat, maxRetry: nat)
    requires 1 <= attempt <= maxRetry
    ensures var r := RetryLoop(script, attempt, maxRetry);
      (r.end == Stopped(Timeout) && r.sent == maxRetry - attempt + 1)
        <==> Timeouts(script, maxRetry - attempt + 1)
    decreases |script|
  {
    if script != [] {
      if IsTimeout(script[0]) && attempt != maxRetry {
        RetryLoopTimeouts(script[1..], attempt + 1, maxRetry);
        var n := maxRetry - attempt;
        if Timeouts(script[1..], n) {
          assert forall i :: 0 <= i < n + 1 ==> IsTimeout(script[i]) by {
            forall i | 0 <= i < n + 1 ensures IsTimeout(script[i]) {
              if i > 0 { assert script[i] == script[1..][i - 1]; }
            }
          }
        }
        if Timeouts(script, n + 1) {
          assert forall i :: 0 <= i < n ==> IsTimeout(script[1..][i]) by {
            forall i | 0 <= i < n ensures IsTimeout(script[1..][i]) {
              assert script[1..][i] == script[i + 1];
            }
          }
        }
      }
    }
  }

  /** With at least one try allowed, the handshake times out after exactly
      `recv_max_retry` SYNs if and only if the encryption step passes and
      the first `recv_max_retry` receives all time out. */
  lemma TimeoutIff(st: ConnState, preferServerName: bool, encStep: Option<ConnectionError>, script: seq<Exchange>)
    requires st.recvMaxRetry >= 1
    ensures var o := ClientHandshakeSpec(st, preferServerName, encStep, script);
      (o.result == Err(Timeout) && o.sent == st.recvMaxRetry)
        <==> (!st.encrypted || encStep.None?) && Timeouts(script, st.recvMaxRetry)
  {
    RetryLoopTimeouts(script, 1, st.recvMaxRetry);
  }

  lemma {:induction false} RetryLoopBounded(script: seq<Exchange>, attempt: nat, maxRetry: nat)
    requires 1 <= attempt <= maxRetry
    ensures RetryLoop(script, attempt, maxRetry).sent <= maxRetry - attempt + 1
    decreases |script|
  {
    if script != [] && IsTimeout(script[0]) && attempt != maxRetry {
      RetryLoopBounded(script[1..], attempt + 1, maxRetry);
    }
  }

  /** At most `recv_max_retry` SYNs are sent when it is at least one. */
  lemma AtMostMaxRetrySyns(st: ConnState, preferServerName: bool, encStep: Option<ConnectionError>, script: seq<Exchange>)
    requires st.recvMaxRetry >= 1
    ensures ClientHandshakeSpec(st, preferServerName, encStep, script).sent <= st.recvMaxRetry
  {
    RetryLoopBounded(script, 1, st.recvMaxRetry);
  }

  lemma {:induction false} RetryLoopUnbounded(script: seq<Exchange>, attempt: nat)
    requires attempt >= 1 && Timeouts(script, |script|)
    ensures RetryLoop(script, attempt, 0) == LoopRun(Stopped(Closed), |script|, |script|)
    decreases |script|
  {
    if script != [] {
      assert Timeouts(script[1..], |script| - 1) by {
        forall i | 0 <= i < |script| - 1 ensures IsTimeout(script[1..][i]) {
          assert script[1..][i] == script[i + 1];
        }
      }
      RetryLoopUnbounded(script[1..], attempt + 1);
    }
  }

  /** A `recv_max_retry` of zero is never reached, because attempts count
      from one: the client retries on every timeout for as long as the
      transport lasts, and never answers `Timeout` for it. */
  lemma ZeroMaxRetryRetriesForever(st: ConnState, preferServerName: bool, encStep: Option<ConnectionError>,
                                   script: seq<Exchange>)
    requires !st.encrypted || encStep.None?
    requires st.recvMaxRetry == 0 && Timeouts(script, |script|)
    ensures ClientHandshakeSpec(st, preferServerName, encStep, script) == Outcome(st, Err(Closed), |script|, |script|)
  {
    RetryLoopUnbounded(script, 1);
  }

  lemma {:induction false} RetryLoopFirstDecision(script: seq<Exchange>, attempt: nat, maxRetry: nat, k: nat)
    requires attempt >= 1 && k < |script| && Timeouts(script, k) && !IsTimeout(script[k])
    requires maxRetry == 0 || maxRetry >= attempt + k
    ensures RetryLoop(script, attempt, maxRetry)
      == LoopRun(Verdict(script[k]), k + 1, if script[k].SendFailed? then k else k + 1)
    decreases k
  {
    if k > 0 {
      assert IsTimeout(script[0]);
      assert Timeouts(script[1..], k - 1) by {
        forall i | 0 <= i < k - 1 ensures IsTimeout(script[1..][i]) {
          assert script[1..][i] == script[i + 1];
        }
      }
      RetryLoopFirstDecision(script[1..], attempt + 1, maxRetry, k - 1);
    }
  }

  /** The first round within the retry budget that is not a receive
      timeout decides the loop: a server SYN ends it, any other reply is
      `Unexpected`, and every other error is passed on as it is. */
  lemma FirstDecisionEndsLoop(st: ConnState, preferServerName: bool, encStep: Option<ConnectionError>,
                              script: seq<Exchange>, k: nat)
    requires !st.encrypted || encStep.None?
    requires k < |script| && Timeouts(script, k) && !IsTimeout(script[k])
    requires st.recvMaxRetry == 0 || st.recvMaxRetry > k
    ensures var o, run := ClientHandshakeSpec(st, preferServerName, encStep, script), RetryLoop(script, 1, st.recvMaxRetry);
      o.rounds == k + 1 && o.sent == (if script[k].SendFailed? then k else k + 1)
      && run.end == Verdict(script[k])
      && (match script[k]
          case SendFailed(e) => o.result == Err(e)
          case Received(Ok(body)) =>
            (body.Syn? ==> run.end == ServerSyn(body.syn))
            && (body.Syn? <==> o.result != Err(Unexpected(body)))
          case Received(Err(e)) => o.result == Err(e))
  {
    RetryLoopFirstDecision(script, 1, st.recvMaxRetry, k);
  }

  /** The encryption sub-handshake runs first and only for an encrypted
      connection: its failure ends the handshake before any SYN, and for a
      plain connection its outcome does not matter. */
  lemma EncryptionStepFirst(st: ConnState, preferServerName: bool, encStep: Option<ConnectionError>, script: seq<Exchange>)
    ensures var o := ClientHandshakeSpec(st, preferServerName, encStep, script);
      (st.encrypted && encStep.Some? ==> o == Outcome(st, Err(encStep.value), 0, 0))
      && (!st.encrypted ==> o == ClientHandshakeSpec(st, preferServerName, None, script))
  {
  }

  /** After the server's SYN: the session name is adopted exactly when the
      server sent one and the client had none or prefers the server's,
      `command` becomes the server's COMMAND flag, and the handshake
      succeeds exactly when the ENCRYPTED flags agree, taking the server's
      initial sequence as `peer_seq`. Nothing else changes. */
  lemma AfterServerSyn(st: ConnState, preferServerName: bool, encStep: Option<ConnectionError>, script: seq<Exchange>)
    requires !st.encrypted || encStep.None?
    requires RetryLoop(script, 1, st.recvMaxRetry).end.ServerSyn?
    ensures var s := RetryLoop(script, 1, st.recvMaxRetry).end.syn;
      var o := ClientHandshakeSpec(st, preferServerName, encStep, script);
      && (o.state.sessName != st.sessName ==> o.state.sessName == SessionName(s))
      && ((st.sessName.None? || preferServerName) && HasSessionName(s) ==> o.state.sessName == Some(s.sessName))
      && (!(st.sessName.None? || preferServerName) || !HasSessionName(s) ==> o.state.sessName == st.sessName)
      && o.state.command == s.flags[COMMAND]
      && (o.result.Ok? <==> st.encrypted == s.flags[ENCRYPTED])
      && (o.result.Err? ==> o.result.error == EncryptionMismatch)
      && o.state.peerSeq == (if o.result.Ok? then s.initSeq else st.peerSeq)
      && o.state.selfSeq == st.selfSeq && o.state.encrypted == st.encrypted
      && o.state.recvMaxRetry == st.recvMaxRetry
  {
  }

  /** The handshake succeeds only on a server SYN whose ENCRYPTED flag
      matches the connection's. */
  lemma SuccessIff(st: ConnState, preferServerName: bool, encStep: Option<ConnectionError>, script: seq<Exchange>)
    ensures var run := RetryLoop(script, 1, st.recvMaxRetry);
      ClientHandshakeSpec(st, preferServerName, encStep, script).result.Ok?
      <==> ((!st.encrypted || encStep.None?) && run.end.ServerSyn? && run.end.syn.flags[ENCRYPTED] == st.encrypted)
  {
  }

  /** One round of the loop, seen from attempt `attempt` of a run over
      `script0`: the script is used up, or a timeout is retried, or the
      round's verdict ends the run. */
  lemma RetryLoopStep(script0: seq<Exchange>, attempt: nat, maxRetry: nat)
    requires 1 <= attempt && attempt - 1 <= |script0|
    requires Later(RetryLoop(script0[attempt - 1..], attempt, maxRetry), attempt - 1) == RetryLoop(script0, 1, maxRetry)
    ensures var k, s, run := attempt - 1, script0[attempt - 1..], RetryLoop(script0, 1, maxRetry);
      && (s == [] ==> run == LoopRun(Stopped(Closed), k, k))
      && (s != [] && IsTimeout(s[0]) && attempt != maxRetry ==>
            s[1..] == script0[attempt..]
            && Later(RetryLoop(script0[attempt..], attempt + 1, maxRetry), attempt) == run)
      && (s != [] && !(IsTimeout(s[0]) && attempt != maxRetry) ==>
            run == LoopRun(Verdict(s[0]), k + 1, if s[0].SendFailed? then k else k + 1)
            && script0[run.rounds..] == s[1..])
  {
    var s := script0[attempt - 1..];
    if s != [] {
      assert s[1..] == script0[attempt..];
    }
  }

  /** One round of the SYN loop, on values: from the loop invariant at
      `attempt` and what `Connection.Attempt` promises for the round, either
      the loop goes on with the invariant at `attempt + 1`, or it ends as
      `RetryLoop` does. */
  lemma SynLoopAdvance(script0: seq<Exchange>, attempt: nat, maxRetry: nat, sent0: seq<SynBody>, syn: SynBody,
                       script1: seq<Exchange>, sent1: seq<SynBody>, done: Option<LoopEnd>)
    requires 1 <= attempt && attempt - 1 <= |script0|
    requires Later(RetryLoop(script0[attempt - 1..], attempt, maxRetry), attempt - 1) == RetryLoop(script0, 1, maxRetry)
    requires var s0, log0 := script0[attempt - 1..], sent0 + Copies(syn, attempt - 1);
      && (s0 == [] ==> done == Some(Stopped(Closed)) && script1 == s0 && sent1 == log0)
      && (s0 != [] && IsTimeout(s0[0]) && attempt != maxRetry ==>
            done == None && script1 == s0[1..] && sent1 == log0 + [syn])
      && (s0 != [] && !(IsTimeout(s0[0]) && attempt != maxRetry) ==>
            done == Some(Verdict(s0[0])) && script1 == s0[1..]
            && sent1 == log0 + (if s0[0].SendFailed? then [] else [syn]))
    ensures done.None? ==>
      && attempt <= |script0| && script1 == script0[attempt..]
      && sent1 == sent0 + Copies(syn, attempt)
      && Later(RetryLoop(script0[attempt..], attempt + 1, maxRetry), attempt) == RetryLoop(script0, 1, maxRetry)
    ensures done.Some? ==> var run := RetryLoop(script0, 1, maxRetry);
      && done.value == run.end && script1 == script0[run.rounds..]
      && sent1 == sent0 + Copies(syn, run.sent)
  {
    RetryLoopStep(script0, attempt, maxRetry);
    CopiesSnoc(syn, attempt - 1);
  }

  //////////////////////////////////////////////////////////////////////////
  // The imperative handshake

  /** `n` copies of `x`. */
  function Copies<T>(x: T, n: nat): (r: seq<T>)
    ensures |r| == n && forall i :: 0 <= i < n ==> r[i] == x
  {
    seq(n, _ => x)
  }

  lemma CopiesSnoc<T>(x: T, n: nat)
    ensures Copies(x, n) + [x] == Copies(x, n + 1)
  {
  }

  /** The scripted transport: the rounds still to come and the SYNs sent. */
  class Transport {
    var script: seq<Exchange>
    var sent: seq<SynBody>

    constructor (script: seq<Exchange>)
      ensures this.script == script && sent == []
    {
      this.script := script;
      sent := [];
    }

    /** `send_packet`: fails as the next round says, or logs the SYN. */
    method SendPacket(syn: SynBody) returns (r: Result<(), ConnectionError>)
      modifies this
      ensures old(script) == [] ==> r == Err(Closed) && script == old(script) && sent == old(sent)
      ensures old(script) != [] && old(script)[0].SendFailed? ==>
        r == Err(old(script)[0].error) && script == old(script)[1..] && sent == old(sent)
      ensures old(script) != [] && old(script)[0].Received? ==>
        r == Ok(()) && script == old(script) && sent == old(sent) + [syn]
    {
      if script == [] {
        r := Err(Closed);
      } else if script[0].SendFailed? {
        r := Err(script[0].error);
        script := script[1..];
      } else {
        r := Ok(());
        sent := sent + [syn];
      }
    }

    /** `recv_packet`: the reply of the next round. */
    method RecvPacket() returns (r: Result<SupportedSessionBody, ConnectionError>)
      modifies this
      ensures old(script) != [] && old(script)[0].Received? ==>
        r == old(script)[0].reply && script == old(script)[1..]
      ensures (old(script) == [] || old(script)[0].SendFailed?) ==> r == Err(Closed) && script == old(script)
      ensures sent == old(sent)
    {
      if script != [] && script[0].Received? {
        r := script[0].reply;
        script := script[1..];
      } else {
        r := Err(Closed);
      }
    }
  }

  /** A client connection over a scripted transport. */
  class Connection {
    var selfSeq: Sequence
    var peerSeq: Sequence
    var sessName: Option<Str>
    var command: bool
    var encrypted: bool
    var recvMaxRetry: nat
    const transport: Transport

    constructor (st: ConnState, transport: Transport)
      ensures State() == st && this.transport == transport
    {
      selfSeq, peerSeq, sessName := st.selfSeq, st.peerSeq, st.sessName;
      command, encrypted, recvMaxRetry := st.command, st.encrypted, st.recvMaxRetry;
      this.transport := transport;
    }

    function State(): ConnState
      reads this
    {
      ConnState(selfSeq, peerSeq, sessName, command, encrypted, recvMaxRetry)
    }

    /** One attempt of the SYN loop: send the SYN, wait for the reply, and
        either stop (`Some`) or ask for a retry (`None`), as `RetryLoop`'s
        first round does. */
    method Attempt(attempt: nat) returns (done: Option<LoopEnd>)
      requires NameSendable(sessName)
      modifies transport
      ensures var s0 := old(transport.script);
        s0 == [] ==> done == Some(Stopped(Closed)) && transport.script == s0 && transport.sent == old(transport.sent)
      ensures var s0 := old(transport.script);
        s0 != [] && IsTimeout(s0[0]) && attempt != recvMaxRetry ==>
          done == None && transport.script == s0[1..] && transport.sent == old(transport.sent) + [ClientSyn(State())]
      ensures var s0 := old(transport.script);
        s0 != [] && !(IsTimeout(s0[0]) && attempt != recvMaxRetry) ==>
          && done == Some(Verdict(s0[0])) && transport.script == s0[1..]
          && transport.sent == old(transport.sent) + (if s0[0].SendFailed? then [] else [ClientSyn(State())])
    {
      var clientSyn := SynNew(selfSeq, command, encrypted);
      if sessName.Some? {
        var named := SetSessionName(clientSyn, sessName.value);
        clientSyn := named.0;
      }
      assert clientSyn == ClientSyn(State());
      var sendResult := transport.SendPacket(clientSyn);
      if sendResult.Err? {
        return Some(Stopped(sendResult.error));
      }
      var reply := transport.RecvPacket();
      if reply.Err? && reply.error == Timeout && attempt != recvMaxRetry {
        return None;
      }
      return Some(Verdict(Received(reply)));
    }

    /** The SYN loop: the way it ends, and the rounds and SYNs it uses, are
        those of `RetryLoop` from attempt one. */
    method SynLoop() returns (end: LoopEnd)
      requires NameSendable(sessName)
      modifies transport
      ensures var run := RetryLoop(old(transport.script), 1, recvMaxRetry);
        && end == run.end
        && transport.script == old(transport.script)[run.rounds..]
        && transport.sent == old(transport.sent) + Copies(ClientSyn(State()), run.sent)
    {
      ghost var script0 := transport.script;
      ghost var sent0 := transport.sent;
      ghost var syn := ClientSyn(State());
      var attempt := 1;
      while true
        invariant attempt >= 1 && attempt - 1 <= |script0|
        invariant transport.script == script0[attempt - 1..]
        invariant transport.sent == sent0 + Copies(syn, attempt - 1)
        invariant Later(RetryLoop(script0[attempt - 1..], attempt, recvMaxRetry), attempt - 1)
          == RetryLoop(script0, 1, recvMaxRetry)
        decreases |script0| - (attempt - 1)
      {
        var done := Attempt(attempt);
        SynLoopAdvance(script0, attempt, recvMaxRetry, sent0, syn, transport.script, transport.sent, done);
        if done.Some? {
          return done.value;
        }
        attempt := attempt + 1;
      }
    }

    /** `client_handshake`: the connection, the result, the rounds of the
        script used and the SYNs sent are those of `ClientHandshakeSpec`. */
    method ClientHandshake(preferServerName: bool, encStep: Option<ConnectionError>)
      returns (r: Result<(), ConnectionError>)
      requires NameSendable(sessName)
      modifies this, transport
      ensures var o := ClientHandshakeSpec(old(State()), preferServerName, encStep, old(transport.script));
        && r == o.result && State() == o.state
        && transport.script == old(transport.script)[o.rounds..]
        && transport.sent == old(transport.sent) + Copies(ClientSyn(old(State())), o.sent)
    {
      if encrypted && encStep.Some? {
        assert old(transport.script)[0..] == old(transport.script);
        return Err(encStep.value);
      }
      var end := SynLoop();
      if end.Stopped? {
        return Err(end.error);
      }
      var serverSyn := end.syn;
      sessName := AdoptName(sessName, preferServerName, serverSyn);
      command := serverSyn.flags[COMMAND];
      if encrypted != serverSyn.flags[ENCRYPTED] {
        return Err(EncryptionMismatch);
      }
      peerSeq := serverSyn.initSeq;
      return Ok(());
    }
  }
}
