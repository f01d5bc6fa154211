/** The identity repository as rows the source updates; every method is one transaction. */
module IdentityRepository {
  import opened Protocol
  import opened Identity

  class AgentIdentityRepository {
    var enrollments: map<Digest, Enrollment>
    var groups: map<nat, bool>
    var devices: map<nat, Device>
    var credentials: map<Digest, Credential>
    // The next value of the devices' auto-increment key.
    var nextDevice: nat

    ghost var rotations: seq<(Digest, Digest)>
    ghost var enrolled: seq<Digest>

    ghost function Abs(): Tables
      reads this
    {
      Tables(enrollments, groups, devices, credentials, rotations, enrolled)
    }

    ghost predicate Valid()
      reads this
    {
      forall d :: d in devices ==> d < nextDevice
    }

    constructor ()
      ensures Valid() && Abs() == EMPTY
    {
      enrollments, groups, devices, credentials, nextDevice := map[], map[], map[], map[], 1;
      rotations, enrolled := [], [];
    }

    /** A repeated revocation keeps the time of the first; a token already used is not revoked. */
    method RevokeEnrollment(token: Digest, now: int) returns (error: Option<Error>)
      requires Valid()
      modifies this`enrollments
      ensures Valid() && (error, Abs()) == Revoke(old(Abs()), token, now)
    {
      if token !in enrollments {
        return Some(NotFound);
      }
      var row := enrollments[token];
      if row.used.Some? {
        return Some(AlreadyUsed);
      }
      if row.revoked.None? {
        enrollments := enrollments[token := row.(revoked := Some(now))];
      }
      error := None;
    }

    /** The device with this name in the group, or the id that a new one would get. */
    method FindDevice(name: string, group: nat) returns (device: nat)
      requires Valid()
      ensures device !in devices ==> device == nextDevice
      ensures device in devices ==> devices[device].name == name && devices[device].group == group
      ensures device !in devices ==> forall d :: d in devices ==> !(devices[d].name == name && devices[d].group == group)
    {
      device := nextDevice;
      var pending := devices.Keys;
      while pending != {}
        invariant pending <= devices.Keys
        invariant forall d :: d in devices && d !in pending ==> !(devices[d].name == name && devices[d].group == group)
        decreases |pending|
      {
        var d :| d in pending;
        pending := pending - {d};
        if devices[d].name == name && devices[d].group == group {
          return d;
        }
      }
    }

    /** Revokes whatever the device holds, then inserts the new credential. */
    method ReplaceCredentials(device: nat, minted: Digest, now: int, expires: int)
      modifies this`credentials
      ensures credentials == Replace(old(credentials), device, minted, now, expires)
    {
      credentials := map d | d in credentials ::
        if credentials[d].device == device && credentials[d].revoked.None? then credentials[d].(revoked := Some(now)) else credentials[d];
      credentials := credentials[minted := Credential(device, now, expires, None)];
    }

    method EnrollDevice(token: Digest, name: string, minted: Digest, now: int, ttl: nat) returns (reply: Reply, ghost device: nat)
      requires Valid() && minted !in credentials
      modifies this
      ensures Valid()
      ensures Legal(old(Abs()), Op.EnrollDevice(token, name, device, minted, now, ttl))
      ensures (reply, Abs()) == Enroll(old(Abs()), token, name, device, minted, now, ttl)
    {
      ghost var t := Abs();
      var group := if token in enrollments then enrollments[token].group else 0;
      var id := FindDevice(name, group);
      device := id;
      assert Legal(t, Op.EnrollDevice(token, name, device, minted, now, ttl));
      if token !in enrollments {
        return Rejected(EnrollmentInvalid), device;
      }
      var row := enrollments[token];
      if row.used.Some? || row.revoked.Some? || row.expires <= now {
        return Rejected(EnrollmentInvalid), device;
      }
      if row.name.Some? && row.name.value != name {
        return Rejected(EnrollmentInvalid), device;
      }
      if row.group !in groups || !groups[row.group] {
        return Rejected(EnrollmentInvalid), device;
      }
      if id in devices {
        if !devices[id].active {
          return Rejected(DeviceNotActive), device;
        }
      } else {
        devices := devices[id := Device(name, row.group, true)];
        nextDevice := nextDevice + 1;
      }
      ReplaceCredentials(id, minted, now, now + ttl);
      enrollments := enrollments[token := row.(used := Some((now, id)))];
      enrolled := enrolled + [token];
      reply := Issued(id, minted, now + ttl);
    }

    method RotateToken(spent: Digest, minted: Digest, now: int, ttl: nat) returns (reply: Reply)
      requires Valid() && minted !in credentials
      modifies this
      ensures Valid() && (reply, Abs()) == Rotate(old(Abs()), spent, minted, now, ttl)
    {
      if spent !in credentials || credentials[spent].revoked.Some? || credentials[spent].expires <= now {
        return Rejected(InvalidToken);
      }
      var device := credentials[spent].device;
      if device !in devices || !devices[device].active {
        return Rejected(DeviceNotActive);
      }
      ReplaceCredentials(device, minted, now, now + ttl);
      rotations := rotations + [(spent, minted)];
      reply := Issued(device, minted, now + ttl);
    }
  }
}
