/** How enrollment, rotation and the agent's credential manager answer, and what each answer changes, on the rows and fields. */
module CredentialAnswers {
  import opened Protocol
  import opened CredentialManager
  import I = Identity
  import C = CredentialChain

  // ------------------------------------------------------------ the server

  /** The token is there, in time, neither spent nor revoked, of this name if it names one, and its group is active. */
  predicate Open(t: I.Tables, token: Digest, name: string, now: int) {
    && token in t.enrollments
    && t.enrollments[token].used == None && t.enrollments[token].revoked == None
    && now < t.enrollments[token].expires
    && (t.enrollments[token].name == None || t.enrollments[token].name == Some(name))
    && t.enrollments[token].group in t.groups && t.groups[t.enrollments[token].group] == true
  }

  /** The device has the new credential, its others are revoked at this time at the latest, and no other device's row changes. */
  ghost predicate GivenTo(t: I.Tables, u: I.Tables, device: nat, minted: Digest, now: int, expires: int) {
    && u.credentials.Keys == t.credentials.Keys + {minted}
    && u.credentials[minted] == I.Credential(device, now, expires, None)
    && (forall d :: d in t.credentials && d != minted ==>
          u.credentials[d] == var c := t.credentials[d];
                              I.Credential(c.device, c.issued, c.expires, if c.device == device && c.revoked == None then Some(now) else c.revoked))
  }

  lemma Given(t: I.Tables, device: nat, minted: Digest, now: int, expires: int)
    ensures GivenTo(t, t.(credentials := I.Replace(t.credentials, device, minted, now, expires)), device, minted, now, expires)
  {
    var u := I.Replace(t.credentials, device, minted, now, expires);
    assert u.Keys == t.credentials.Keys + {minted};
  }

  /** An enrollment is answered by the token's row, its group and the device's row, in that order. */
  lemma EnrollAnswers(t: I.Tables, token: Digest, name: string, device: nat, minted: Digest, now: int, ttl: nat)
    ensures var (reply, u) := I.Enroll(t, token, name, device, minted, now, ttl);
            if !Open(t, token, name, now) then reply == I.Rejected(I.EnrollmentInvalid) && u == t
            else if device in t.devices && !t.devices[device].active then reply == I.Rejected(I.DeviceNotActive) && u == t
            else
              var e := t.enrollments[token];
              && reply == I.Issued(device, minted, now + ttl)
              && GivenTo(t, u, device, minted, now, now + ttl)
              && u.enrollments == t.enrollments[token := I.Enrollment(e.name, e.group, e.expires, Some((now, device)), None)]
              && u.devices == (if device in t.devices then t.devices else t.devices[device := I.Device(name, e.group, true)])
              && u.groups == t.groups && u.rotations == t.rotations && u.enrolled == t.enrolled + [token]
  {
    Given(t, device, minted, now, now + ttl);
  }

  /** A rotation is answered by the credential's row and the device's row: a spent or expired digest is refused before the device is looked at. */
  lemma RotateAnswers(t: I.Tables, spent: Digest, minted: Digest, now: int, ttl: nat)
    ensures var (reply, u) := I.Rotate(t, spent, minted, now, ttl);
            if spent !in t.credentials || t.credentials[spent].revoked.Some? || t.credentials[spent].expires <= now then
              reply == I.Rejected(I.InvalidToken) && u == t
            else
              var device := t.credentials[spent].device;
              if device !in t.devices || !t.devices[device].active then reply == I.Rejected(I.DeviceNotActive) && u == t
              else
                && reply == I.Issued(device, minted, now + ttl)
                && GivenTo(t, u, device, minted, now, now + ttl)
                && u == t.(credentials := u.credentials, rotations := t.rotations + [(spent, minted)])
  {
    if spent in t.credentials {
      Given(t, t.credentials[spent].device, minted, now, now + ttl);
    }
  }

  /** A revocation is refused for no token and for a spent one; a second one keeps the time of the first. */
  lemma RevokeAnswers(t: I.Tables, token: Digest, now: int)
    ensures var (error, u) := I.Revoke(t, token, now);
            && (error == Some(I.NotFound) <==> token !in t.enrollments)
            && (error == Some(I.AlreadyUsed) <==> token in t.enrollments && t.enrollments[token].used.Some?)
            && (error.Some? ==> u == t && (error.value == I.NotFound || error.value == I.AlreadyUsed))
            && (error.None? ==>
                  var e := t.enrollments[token];
                  u == t.(enrollments := t.enrollments[token := I.Enrollment(e.name, e.group, e.expires, None,
                                                                             if e.revoked.Some? then e.revoked else Some(now))]))
  {
    if token in t.enrollments {
      assert t.enrollments[token := t.enrollments[token]] == t.enrollments;
    }
  }

  // ------------------------------------------------------------ which credential is live

  /** Step `i` adds this credential to the table. */
  predicate Adds(run: I.Run, i: nat, d: Digest) {
    i < |run.ops| < |run.states| && d !in run.states[i].credentials && d in run.states[i + 1].credentials
  }

  /** Step `i` adds one of this device. */
  ghost predicate Supersedes(run: I.Run, i: nat, device: nat) {
    exists x :: Adds(run, i, x) && run.states[i + 1].credentials[x].device == device
  }

  /** The credential was added at some step, and none of its device since. */
  ghost predicate Latest(run: I.Run, k: nat, d: Digest) {
    exists i: nat :: i < k && AddedLast(run, i, k, d)
  }

  ghost predicate NoneOf(run: I.Run, i: nat, k: nat, device: nat) {
    forall j: nat :: i < j < k ==> !Supersedes(run, j, device)
  }

  ghost predicate AddedLast(run: I.Run, i: nat, k: nat, d: Digest) {
    Adds(run, i, d) && NoneOf(run, i, k, run.states[i + 1].credentials[d].device)
  }

  lemma LiveStep(t: I.Tables, op: I.Op, d: Digest)
    requires I.Legal(t, op)
    ensures var u := I.Do(t, op);
            && (d in t.credentials ==> d in u.credentials && u.credentials[d].device == t.credentials[d].device)
            && (I.Live(u, d) <==>
                  || (d in u.credentials && d !in t.credentials)
                  || (I.Live(t, d) && forall x :: x in u.credentials && x !in t.credentials ==> u.credentials[x].device != t.credentials[d].device))
  {
  }

  lemma LiveNext(run: I.Run, k: nat, d: Digest)
    requires I.IsRun(run) && k < |run.ops|
    ensures d in run.states[k].credentials ==>
              d in run.states[k + 1].credentials && run.states[k + 1].credentials[d].device == run.states[k].credentials[d].device
    ensures I.Live(run.states[k + 1], d) <==>
              Adds(run, k, d) || (I.Live(run.states[k], d) && !Supersedes(run, k, run.states[k].credentials[d].device))
  {
    assert I.Legal(run.states[k], run.ops[k]) && run.states[k + 1] == I.Do(run.states[k], run.ops[k]);
    var t, u := run.states[k], run.states[k + 1];
    LiveStep(t, run.ops[k], d);
    assert forall x :: Adds(run, k, x) <==> x in u.credentials && x !in t.credentials;
    if d in t.credentials && (exists x :: x in u.credentials && x !in t.credentials && u.credentials[x].device == t.credentials[d].device) {
      assert Supersedes(run, k, t.credentials[d].device);
    }
  }

  lemma {:induction false} DeviceStays(run: I.Run, i: nat, k: nat, d: Digest)
    requires I.IsRun(run) && i <= k < |run.states| && d in run.states[i].credentials
    ensures d in run.states[k].credentials && run.states[k].credentials[d].device == run.states[i].credentials[d].device
  {
    if i < k {
      DeviceStays(run, i, k - 1, d);
      LiveNext(run, k - 1, d);
    }
  }

  lemma LatestNext(run: I.Run, k: nat, d: Digest)
    requires I.IsRun(run) && k < |run.ops|
    ensures Latest(run, k + 1, d) <==>
              Adds(run, k, d) || (Latest(run, k, d) && d in run.states[k].credentials && !Supersedes(run, k, run.states[k].credentials[d].device))
  {
    if Latest(run, k + 1, d) && !Adds(run, k, d) {
      var i: nat :| i < k + 1 && AddedLast(run, i, k + 1, d);
      assert i < k && AddedLast(run, i, k, d);
      DeviceStays(run, i + 1, k, d);
    }
    if Latest(run, k, d) && d in run.states[k].credentials && !Supersedes(run, k, run.states[k].credentials[d].device) {
      var i: nat :| i < k && AddedLast(run, i, k, d);
      DeviceStays(run, i + 1, k, d);
      assert AddedLast(run, i, k + 1, d);
    }
    if Adds(run, k, d) {
      assert AddedLast(run, k, k + 1, d);
    }
  }

  /**
    In every run of enrollments, rotations and changes of devices: a credential is live if and only if it
    was added at some step and none of its device was added since. Nothing else revokes one, and nothing
    brings one back.
   */
  lemma {:induction false} LiveIffLatest(run: I.Run, k: nat, d: Digest)
    requires I.IsRun(run) && k < |run.states|
    ensures I.Live(run.states[k], d) <==> Latest(run, k, d)
  {
    if k > 0 {
      LiveIffLatest(run, k - 1, d);
      LiveNext(run, k - 1, d);
      LatestNext(run, k - 1, d);
    }
  }

  // ------------------------------------------------------------ the agent

  /** The token in memory lives for the minimum at least. */
  predicate InMemory(a: Agent, now: int, minimum: int) {
    a.token.Some? && a.expires.Some? && now + minimum <= a.expires.value
  }

  /** The file names a refresh token that is still good. */
  predicate OnFile(a: Agent, now: int) {
    a.file.Some? && now < a.file.value.expires
  }

  /** A token in memory is returned as it is, whatever the file, the reply and the writing would have been. */
  lemma MemoryAnswers(a: Agent, now: int, minimum: int, reading: Reading, reply: ClientReply, writing: Writing)
    requires InMemory(a, now, minimum)
    ensures Ensure(a, now, minimum, reading, reply, writing) == (Token(a.token.value, a.expires.value), a)
    ensures !Asks(a, now, minimum, reading)
  {
  }

  /** Otherwise the file comes next: what cannot be read, is no credential, is missing or is too old asks nobody. */
  lemma FileAnswers(a: Agent, now: int, minimum: int, reading: Reading, reply: ClientReply, writing: Writing)
    requires !InMemory(a, now, minimum) && (reading.Readable? ==> !OnFile(a, now))
    ensures !Asks(a, now, minimum, reading)
    ensures Ensure(a, now, minimum, reading, reply, writing) ==
              match reading
              case Unreadable => (NoToken(Transient), Agent(a.file, None, None, a.replaced))
              case Corrupt(removable) => (NoToken(NeedsEnrollment), Agent(if removable then None else a.file, None, None, a.replaced))
              case Readable(removable) => if removable then (NoToken(NeedsEnrollment), Agent(None, None, None, a.replaced)) else (Raised, a)
  {
  }

  /** And only then the server is asked: a new token counts when it is on disk, a refused one goes, and other failures keep the file. */
  lemma ServerAnswers(a: Agent, now: int, minimum: int, reading: Reading, reply: ClientReply, writing: Writing)
    requires !InMemory(a, now, minimum) && reading.Readable? && OnFile(a, now)
    ensures Asks(a, now, minimum, reading)
    ensures Ensure(a, now, minimum, reading, reply, writing) ==
              match reply
              case Refreshed(device, refresh, refreshExpires, accessExpires) => (
                var issued := Some(Stored(device, refresh, refreshExpires));
                match writing
                case Written => (Token(refresh, accessExpires), Agent(issued, Some(refresh), Some(accessExpires), a.replaced + 1))
                case NotReplaced => (NoToken(CredentialPersistFailed), Agent(a.file, None, None, a.replaced))
                case ReplacedThenFailed => (NoToken(CredentialPersistFailed), Agent(issued, None, None, a.replaced + 1)))
              case BadToken => if reading.removable then (NoToken(NeedsEnrollment), Agent(None, None, None, a.replaced)) else (Raised, a)
              case NotActive => (NoToken(DeviceInactive), Agent(a.file, None, None, a.replaced))
              case Failed => (NoToken(Transient), Agent(a.file, None, None, a.replaced))
  {
  }

  // ------------------------------------------------------------ one agent and the server

  /** What the server answers and holds after a request that it gets. */
  predicate Traded(w: C.World, s: C.Step, reply: I.Reply, server: I.Tables)
    requires s.Refresh? && w.agent.file.Some?
  {
    (reply, server) == I.Rotate(w.server, w.agent.file.value.token, s.minted, s.clock, s.refreshTtl)
  }

  /**
    A refresh reaches the server unless the request is lost, and the agent unless either way is; a
    refusal of the token costs the agent its file, one of the device or anything else only its memory.
   */
  lemma RefreshOutcome(w: C.World, s: C.Step, reply: I.Reply, server: I.Tables)
    requires s.Refresh? && w.agent.file.Some? && !InMemory(w.agent, s.now, s.minimum) && s.reading.Readable? && OnFile(w.agent, s.now)
    requires Traded(w, s, reply, server)
    ensures var (outcome, n) := C.DoRefresh(w, s);
            && n.server == (if s.network == C.RequestLost then w.server else server)
            && (s.network != C.Delivered ==> outcome == NoToken(Transient) && n.agent == Agent(w.agent.file, None, None, w.agent.replaced))
            && (s.network == C.Delivered && reply == I.Rejected(I.InvalidToken) ==>
                  (outcome, n.agent) == if s.reading.removable then (NoToken(NeedsEnrollment), Agent(None, None, None, w.agent.replaced)) else (Raised, w.agent))
            && (s.network == C.Delivered && reply == I.Rejected(I.DeviceNotActive) ==>
                  outcome == NoToken(DeviceInactive) && n.agent == Agent(w.agent.file, None, None, w.agent.replaced))
            && (s.network == C.Delivered && reply.Issued? && s.writing.Written? ==>
                  && outcome == Token(reply.digest, s.clock + s.accessTtl)
                  && n.agent.file == Some(Stored(reply.device, reply.digest, reply.expires))
                  && n.agent.token == Some(reply.digest) && n.agent.expires == Some(s.clock + s.accessTtl))
            && (s.network == C.Delivered && reply.Issued? && !s.writing.Written? ==>
                  && outcome == NoToken(CredentialPersistFailed) && n.agent.token == None && n.agent.expires == None
                  && n.agent.file == if s.writing.NotReplaced? then w.agent.file else Some(Stored(reply.device, reply.digest, reply.expires)))
  {
  }

  /** An enrollment reaches the server unless the request is lost, and changes the agent only when a credential comes back. */
  lemma EnrollOutcome(w: C.World, s: C.Step, reply: I.Reply, server: I.Tables)
    requires s.Enroll?
    requires (reply, server) == I.Enroll(w.server, s.token, s.name, s.device, s.minted, s.clock, s.refreshTtl)
    ensures var n := C.DoEnroll(w, s);
            && n.server == (if s.network == C.RequestLost then w.server else server)
            && (!(s.network == C.Delivered && reply.Issued?) ==> n.agent == w.agent)
            && (s.network == C.Delivered && reply.Issued? ==>
                  && n.agent.file == (if s.writing.NotReplaced? then w.agent.file else Some(Stored(reply.device, reply.digest, reply.expires)))
                  && n.agent.token == (if s.writing.Written? then Some(reply.digest) else None)
                  && n.agent.expires == (if s.writing.Written? then Some(s.clock + s.accessTtl) else None))
  {
  }
}
