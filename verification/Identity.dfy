/** The server's enrollment tokens, devices and refresh credentials; every method of the repository is one step. */
module Identity {
  import opened Protocol

  /** Tokens are fresh and their digests injective, so a digest is the token's number. */
  type Digest = nat

  datatype Enrollment = Enrollment(name: Option<string>, group: nat, expires: int, used: Option<(int, nat)>, revoked: Option<int>)

  datatype Device = Device(name: string, group: nat, active: bool)

  datatype Credential = Credential(device: nat, issued: int, expires: int, revoked: Option<int>)

  /** `rotations` logs the digests traded in and what they were traded for; `enrolled` the tokens enrolled with. */
  datatype Tables = Tables(
    enrollments: map<Digest, Enrollment>,
    groups: map<nat, bool>,
    devices: map<nat, Device>,
    credentials: map<Digest, Credential>,
    rotations: seq<(Digest, Digest)>,
    enrolled: seq<Digest>)

  datatype Error = NotFound | AlreadyUsed | EnrollmentInvalid | DeviceNotActive | InvalidToken

  datatype Reply = Issued(device: nat, digest: Digest, expires: int) | Rejected(error: Error)

  const EMPTY: Tables := Tables(map[], map[], map[], map[], [], [])

  function Revoke(t: Tables, token: Digest, now: int): (Option<Error>, Tables) {
    if token !in t.enrollments then
      (Some(NotFound), t)
    else if t.enrollments[token].used.Some? then
      (Some(AlreadyUsed), t)
    else
      var e := t.enrollments[token];
      (None, if e.revoked.Some? then t else t.(enrollments := t.enrollments[token := e.(revoked := Some(now))]))
  }

  predicate Redeemable(t: Tables, token: Digest, name: string, now: int) {
    && token in t.enrollments
    && var e := t.enrollments[token];
       && e.used.None? && e.revoked.None? && now < e.expires
       && (e.name.Some? ==> e.name.value == name)
       && e.group in t.groups && t.groups[e.group]
  }

  predicate Named(t: Tables, id: nat, name: string, group: nat) {
    id in t.devices && t.devices[id].name == name && t.devices[id].group == group
  }

  /** Revokes what the device has and gives it one new credential. */
  function Replace(credentials: map<Digest, Credential>, device: nat, minted: Digest, now: int, expires: int): map<Digest, Credential> {
    (map d | d in credentials ::
       if credentials[d].device == device && credentials[d].revoked.None? then credentials[d].(revoked := Some(now))
       else credentials[d])[minted := Credential(device, now, expires, None)]
  }

  /** `device` is the row the name and group find, or the id a new row would get. */
  function Enroll(t: Tables, token: Digest, name: string, device: nat, minted: Digest, now: int, ttl: nat): (Reply, Tables) {
    if !Redeemable(t, token, name, now) then
      (Rejected(EnrollmentInvalid), t)
    else
      var e := t.enrollments[token];
      if device in t.devices && !t.devices[device].active then
        (Rejected(DeviceNotActive), t)
      else
        (Issued(device, minted, now + ttl),
         t.(enrollments := t.enrollments[token := e.(used := Some((now, device)))],
            devices := if device in t.devices then t.devices else t.devices[device := Device(name, e.group, true)],
            credentials := Replace(t.credentials, device, minted, now, now + ttl),
            enrolled := t.enrolled + [token]))
  }

  predicate Live(t: Tables, d: Digest) {
    d in t.credentials && t.credentials[d].revoked.None?
  }

  function Rotate(t: Tables, spent: Digest, minted: Digest, now: int, ttl: nat): (Reply, Tables) {
    if !Live(t, spent) || t.credentials[spent].expires <= now then
      (Rejected(InvalidToken), t)
    else
      var device := t.credentials[spent].device;
      if device !in t.devices || !t.devices[device].active then
        (Rejected(DeviceNotActive), t)
      else
        (Issued(device, minted, now + ttl),
         t.(credentials := Replace(t.credentials, device, minted, now, now + ttl),
            rotations := t.rotations + [(spent, minted)]))
  }

  // ------------------------------------------------------------ runs

  datatype Op =
    | IssueEnrollment(token: Digest, bound: Option<string>, group: nat, expires: int)
    | RevokeEnrollment(token: Digest, now: int)
    | EnrollDevice(token: Digest, name: string, device: nat, minted: Digest, now: int, ttl: nat)
    | RotateToken(spent: Digest, minted: Digest, now: int, ttl: nat)
    | SetGroup(group: nat, active: bool)
    | SetDevice(device: nat, active: bool)

  /** New tokens are new, and a device row is found by its name and group or has a new id. */
  ghost predicate Legal(t: Tables, op: Op) {
    match op
    case IssueEnrollment(token, _, _, _) => token !in t.enrollments
    case EnrollDevice(token, name, device, minted, _, _) =>
      && minted !in t.credentials
      && (token in t.enrollments ==>
            var group := t.enrollments[token].group;
            (device in t.devices ==> Named(t, device, name, group)) && (device !in t.devices ==> forall d :: !Named(t, d, name, group)))
    case RotateToken(_, minted, _, _) => minted !in t.credentials
    case _ => true
  }

  function Do(t: Tables, op: Op): Tables {
    match op
    case IssueEnrollment(token, name, group, expires) =>
      t.(enrollments := t.enrollments[token := Enrollment(name, group, expires, None, None)])
    case RevokeEnrollment(token, now) => Revoke(t, token, now).1
    case EnrollDevice(token, name, device, minted, now, ttl) => Enroll(t, token, name, device, minted, now, ttl).1
    case RotateToken(spent, minted, now, ttl) => Rotate(t, spent, minted, now, ttl).1
    case SetGroup(group, active) => t.(groups := t.groups[group := active])
    case SetDevice(device, active) =>
      if device in t.devices then t.(devices := t.devices[device := t.devices[device].(active := active)]) else t
  }

  datatype Run = Run(states: seq<Tables>, ops: seq<Op>)

  ghost predicate IsRun(run: Run) {
    && |run.states| == |run.ops| + 1
    && run.states[0] == EMPTY
    && (forall k {:trigger run.ops[k]} :: 0 <= k < |run.ops| ==>
          Legal(run.states[k], run.ops[k]) && run.states[k + 1] == Do(run.states[k], run.ops[k]))
  }

  // ------------------------------------------------------------ what every step keeps

  /** A device has at most one credential that is not revoked. */
  ghost predicate OneLive(t: Tables) {
    forall a, b :: Live(t, a) && Live(t, b) && t.credentials[a].device == t.credentials[b].device ==> a == b
  }

  /** Every digest was traded in once at most, and is revoked since. */
  ghost predicate RotatedOnce(t: Tables) {
    && (forall i :: 0 <= i < |t.rotations| ==>
          t.rotations[i].0 in t.credentials && !Live(t, t.rotations[i].0) && t.rotations[i].1 in t.credentials)
    && (forall i, j :: 0 <= i < j < |t.rotations| ==> t.rotations[i].0 != t.rotations[j].0)
  }

  /** An enrollment token is spent or revoked, not both, and spent once. */
  ghost predicate EnrolledOnce(t: Tables) {
    && (forall e :: e in t.enrollments ==> t.enrollments[e].used.None? || t.enrollments[e].revoked.None?)
    && (forall e :: e in t.enrollments ==> (t.enrollments[e].used.Some? <==> e in t.enrolled))
    && (forall i :: 0 <= i < |t.enrolled| ==> t.enrolled[i] in t.enrollments)
    && (forall i, j :: 0 <= i < j < |t.enrolled| ==> t.enrolled[i] != t.enrolled[j])
  }

  ghost predicate Sound(t: Tables) {
    OneLive(t) && RotatedOnce(t) && EnrolledOnce(t)
  }

  /** After a replacement the new credential is the device's only live one, and no other device's changes. */
  lemma ReplaceLeavesOne(t: Tables, device: nat, minted: Digest, now: int, expires: int)
    requires minted !in t.credentials
    ensures var u := t.(credentials := Replace(t.credentials, device, minted, now, expires));
            && Live(u, minted) && u.credentials[minted].device == device
            && (forall d :: Live(u, d) && u.credentials[d].device == device ==> d == minted)
            && (forall d :: d in t.credentials && t.credentials[d].device != device ==>
                  d in u.credentials && u.credentials[d] == t.credentials[d])
            && (forall d :: d in t.credentials ==>
                  d in u.credentials && u.credentials[d].device == t.credentials[d].device && (Live(u, d) ==> Live(t, d)))
  {
  }

  lemma RotateKeeps(t: Tables, spent: Digest, minted: Digest, now: int, ttl: nat)
    requires Sound(t) && minted !in t.credentials
    ensures Sound(Rotate(t, spent, minted, now, ttl).1)
  {
    if Rotate(t, spent, minted, now, ttl).0.Issued? {
      ReplaceLeavesOne(t, t.credentials[spent].device, minted, now, now + ttl);
    }
  }

  lemma EnrollKeeps(t: Tables, token: Digest, name: string, device: nat, minted: Digest, now: int, ttl: nat)
    requires Sound(t) && minted !in t.credentials
    ensures Sound(Enroll(t, token, name, device, minted, now, ttl).1)
  {
    if Enroll(t, token, name, device, minted, now, ttl).0.Issued? {
      ReplaceLeavesOne(t, device, minted, now, now + ttl);
    }
  }

  lemma StepKeeps(t: Tables, op: Op)
    requires Sound(t) && Legal(t, op)
    ensures Sound(Do(t, op))
  {
    match op
    case EnrollDevice(token, name, device, minted, now, ttl) => EnrollKeeps(t, token, name, device, minted, now, ttl);
    case RotateToken(spent, minted, now, ttl) => RotateKeeps(t, spent, minted, now, ttl);
    case _ =>
  }

  /** In every run: one live credential per device, every digest traded once, every enrollment spent once. */
  lemma {:induction false} RunIsSound(run: Run, k: nat)
    requires IsRun(run) && k < |run.states|
    ensures Sound(run.states[k])
  {
    if k > 0 {
      RunIsSound(run, k - 1);
      assert Legal(run.states[k - 1], run.ops[k - 1]);
      StepKeeps(run.states[k - 1], run.ops[k - 1]);
    }
  }

  /** A spent enrollment stays spent, by the same device at the same time; a revoked one stays revoked. */
  lemma {:induction false} EnrollmentIsFinal(run: Run, i: nat, k: nat, token: Digest)
    requires IsRun(run) && i <= k < |run.states| && token in run.states[i].enrollments
    ensures token in run.states[k].enrollments
    ensures var a, b := run.states[i].enrollments[token], run.states[k].enrollments[token];
            (a.used.Some? ==> b.used == a.used) && (a.revoked.Some? ==> b.revoked == a.revoked && b.used.None?)
  {
    if i < k {
      EnrollmentIsFinal(run, i, k - 1, token);
      assert Legal(run.states[k - 1], run.ops[k - 1]);
      RunIsSound(run, k);
    } else {
      RunIsSound(run, k);
    }
  }

  /** A revoked digest is refused for ever. */
  lemma {:induction false} RevokedIsFinal(run: Run, i: nat, k: nat, d: Digest)
    requires IsRun(run) && i <= k < |run.states| && d in run.states[i].credentials && !Live(run.states[i], d)
    ensures d in run.states[k].credentials && !Live(run.states[k], d)
    ensures forall minted, now, ttl :: Rotate(run.states[k], d, minted, now, ttl) == (Rejected(InvalidToken), run.states[k])
  {
    if i < k {
      RevokedIsFinal(run, i, k - 1, d);
      assert Legal(run.states[k - 1], run.ops[k - 1]);
    }
  }
}
