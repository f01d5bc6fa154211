/** The agent's credential manager: the refresh token in its file, the access token in memory. */
module CredentialManager {
  import opened Protocol
  import Identity

  type Digest = Identity.Digest

  /** The credential file: whose it is, the refresh token, and when that expires. */
  datatype Stored = Stored(device: nat, token: Digest, expires: int)

  /** An access token is named by the refresh token that was issued with it. */
  datatype Agent = Agent(file: Option<Stored>, token: Option<Digest>, expires: Option<int>, replaced: nat)

  /**
    What reading the file comes to, and whether removing it would go through. `Unreadable` says
    nothing about the file; `Corrupt` means that its content is no credential.
   */
  datatype Reading = Readable(removable: bool) | Unreadable | Corrupt(removable: bool)

  datatype ClientReply =
    | Refreshed(device: nat, refresh: Digest, refreshExpires: int, accessExpires: int)
    | BadToken
    | NotActive
    | Failed

  /** Writing may fail before the file is replaced, or after, when the directory or its mode is checked. */
  datatype Writing = Written | NotReplaced | ReplacedThenFailed

  datatype Reason = NeedsEnrollment | DeviceInactive | CredentialPersistFailed | Transient

  /** `Raised` is an exception that leaves the manager: the file could not be removed. */
  datatype Outcome = Token(issue: Digest, expires: int) | NoToken(reason: Reason) | Raised

  predicate Usable(a: Agent, now: int, minimum: int) {
    a.token.Some? && a.expires.Some? && minimum <= a.expires.value - now
  }

  function Forget(a: Agent): Agent {
    a.(token := None, expires := None)
  }

  /** Puts the issued credential on disk and, only when that went through, the access token in memory. */
  function Install(a: Agent, stored: Stored, accessExpires: int, writing: Writing): (Outcome, Agent) {
    match writing
    case Written =>
      (Token(stored.token, accessExpires), Agent(Some(stored), Some(stored.token), Some(accessExpires), a.replaced + 1))
    case NotReplaced => (NoToken(CredentialPersistFailed), Forget(a))
    case ReplacedThenFailed =>
      (NoToken(CredentialPersistFailed), Forget(a).(file := Some(stored), replaced := a.replaced + 1))
  }

  /** Removes the file, then empties memory; a removal that throws leaves both as they are. */
  function Discard(a: Agent, removable: bool): (Outcome, Agent) {
    if removable then (NoToken(NeedsEnrollment), Forget(a).(file := None)) else (Raised, a)
  }

  /** The request goes out only when memory has no usable token and the file has a refresh token in time. */
  predicate Asks(a: Agent, now: int, minimum: int, reading: Reading) {
    !Usable(a, now, minimum) && reading.Readable? && a.file.Some? && now < a.file.value.expires
  }

  function Ensure(a: Agent, now: int, minimum: int, reading: Reading, reply: ClientReply, writing: Writing): (Outcome, Agent) {
    if Usable(a, now, minimum) then
      (Token(a.token.value, a.expires.value), a)
    else if reading.Unreadable? then
      (NoToken(Transient), Forget(a))
    else if reading.Corrupt? then
      (NoToken(NeedsEnrollment), Forget(a).(file := if reading.removable then None else a.file))
    else if a.file.None? || a.file.value.expires <= now then
      Discard(a, reading.removable)
    else
      match reply
      case Refreshed(device, refresh, refreshExpires, accessExpires) =>
        Install(a, Stored(device, refresh, refreshExpires), accessExpires, writing)
      case BadToken => Discard(a, reading.removable)
      case NotActive => (NoToken(DeviceInactive), Forget(a))
      case Failed => (NoToken(Transient), Forget(a))
  }

  class Manager {
    var file: Option<Stored>
    var accessToken: Option<Digest>
    var accessExpiresAt: Option<int>
    var replaceCount: nat

    function Abs(): Agent
      reads this
    {
      Agent(file, accessToken, accessExpiresAt, replaceCount)
    }

    constructor (stored: Option<Stored>)
      ensures Abs() == Agent(stored, None, None, 0)
    {
      file, accessToken, accessExpiresAt, replaceCount := stored, None, None, 0;
    }

    method ClearMemory()
      modifies this`accessToken, this`accessExpiresAt
      ensures Abs() == Forget(old(Abs()))
    {
      accessToken, accessExpiresAt := None, None;
    }

    method WriteFile(stored: Stored, writing: Writing) returns (ok: bool)
      modifies this`file, this`replaceCount
      ensures ok == writing.Written?
      ensures Abs() == if writing.NotReplaced? then old(Abs()) else old(Abs()).(file := Some(stored), replaced := old(replaceCount) + 1)
    {
      if writing.NotReplaced? {
        return false;
      }
      file := Some(stored);
      replaceCount := replaceCount + 1;
      ok := writing.Written?;
    }

    method InstallIssued(stored: Stored, accessExpires: int, writing: Writing) returns (outcome: Outcome)
      modifies this
      ensures (outcome, Abs()) == Install(old(Abs()), stored, accessExpires, writing)
    {
      var ok := WriteFile(stored, writing);
      if !ok {
        ClearMemory();
        return NoToken(CredentialPersistFailed);
      }
      accessToken := Some(stored.token);
      accessExpiresAt := Some(accessExpires);
      outcome := Token(stored.token, accessExpires);
    }

    /** The part under the lock; the unlocked look at memory before it is another thread's business too. */
    method EnsureAccessToken(now: int, minimum: int, reading: Reading, reply: ClientReply, writing: Writing) returns (outcome: Outcome)
      modifies this
      ensures (outcome, Abs()) == Ensure(old(Abs()), now, minimum, reading, reply, writing)
    {
      if accessToken.Some? && accessExpiresAt.Some? && minimum <= accessExpiresAt.value - now {
        return Token(accessToken.value, accessExpiresAt.value);
      }
      match reading {
        case Unreadable =>
          ClearMemory();
          return NoToken(Transient);
        case Corrupt(removable) =>
          if removable { file := None; }
          ClearMemory();
          return NoToken(NeedsEnrollment);
        case Readable(_) =>
      }
      if file.None? || file.value.expires <= now {
        outcome := RemoveFile(reading.removable);
        return;
      }
      if reply.Refreshed? {
        outcome := InstallIssued(Stored(reply.device, reply.refresh, reply.refreshExpires), reply.accessExpires, writing);
      } else {
        outcome := HandleRefreshFailure(reply, reading.removable);
      }
    }

    method RemoveFile(removable: bool) returns (outcome: Outcome)
      modifies this
      ensures (outcome, Abs()) == Discard(old(Abs()), removable)
    {
      if !removable {
        return Raised;
      }
      file := None;
      ClearMemory();
      outcome := NoToken(NeedsEnrollment);
    }

    method HandleRefreshFailure(reply: ClientReply, removable: bool) returns (outcome: Outcome)
      requires !reply.Refreshed?
      modifies this
      ensures reply.BadToken? && !removable ==> outcome == Raised && Abs() == old(Abs())
      ensures !(reply.BadToken? && !removable) ==>
                && Abs() == Forget(old(Abs())).(file := if reply.BadToken? then None else old(file))
                && outcome == NoToken(if reply.BadToken? then NeedsEnrollment else if reply.NotActive? then DeviceInactive else Transient)
    {
      if reply.BadToken? {
        outcome := RemoveFile(removable);
        return;
      }
      ClearMemory();
      outcome := NoToken(if reply.NotActive? then DeviceInactive else Transient);
    }
  }
}
