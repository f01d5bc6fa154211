/** One agent and the server: which refresh token the agent holds, over a network that loses requests and replies. */
module CredentialChain {
  import opened Protocol
  import opened CredentialManager
  import I = Identity

  /** `lost` is set while an issue of the server has not reached the agent's file. */
  datatype World = World(server: I.Tables, agent: Agent, written: set<Digest>, lost: bool)

  datatype Network = RequestLost | ReplyLost | Delivered

  datatype Step =
    | Refresh(now: int, minimum: int, clock: int, reading: Reading, network: Network,
              minted: Digest, refreshTtl: nat, accessTtl: int, writing: Writing)
    | Enroll(token: Digest, name: string, device: nat, clock: int, network: Network,
             minted: Digest, refreshTtl: nat, accessTtl: int, writing: Writing)
    | Elsewhere(op: I.Op)

  /** What the client makes of the server's reply. */
  function ReplyOf(network: Network, reply: I.Reply, accessExpires: int): ClientReply {
    if !network.Delivered? then Failed
    else
      match reply
      case Issued(device, digest, expires) => Refreshed(device, digest, expires, accessExpires)
      case Rejected(InvalidToken) => BadToken
      case Rejected(DeviceNotActive) => NotActive
      case Rejected(_) => Failed
  }

  function WrittenAfter(written: set<Digest>, reply: ClientReply, writing: Writing): set<Digest> {
    if reply.Refreshed? && !writing.NotReplaced? then written + {reply.refresh} else written
  }

  /** The server issued something and the file does not have it. */
  predicate Misses(reached: bool, reply: I.Reply, client: ClientReply, writing: Writing) {
    reached && reply.Issued? && !(client.Refreshed? && !writing.NotReplaced?)
  }

  function DoRefresh(w: World, s: Step): (Outcome, World)
    requires s.Refresh?
  {
    if !Asks(w.agent, s.now, s.minimum, s.reading) then
      var (outcome, agent) := Ensure(w.agent, s.now, s.minimum, s.reading, Failed, s.writing);
      (outcome, w.(agent := agent))
    else
      var reached := !s.network.RequestLost?;
      var (reply, server) := I.Rotate(w.server, w.agent.file.value.token, s.minted, s.clock, s.refreshTtl);
      var client := ReplyOf(s.network, reply, s.clock + s.accessTtl);
      var (outcome, agent) := Ensure(w.agent, s.now, s.minimum, s.reading, client, s.writing);
      (outcome, World(if reached then server else w.server, agent, WrittenAfter(w.written, client, s.writing),
                      if Misses(reached, reply, client, s.writing) then true else w.lost && !client.Refreshed?))
  }

  /** The agent enrolls only when it has no usable file. */
  function DoEnroll(w: World, s: Step): World
    requires s.Enroll?
  {
    var reached := !s.network.RequestLost?;
    var (reply, server) := I.Enroll(w.server, s.token, s.name, s.device, s.minted, s.clock, s.refreshTtl);
    var client := ReplyOf(s.network, reply, s.clock + s.accessTtl);
    var agent :=
      if client.Refreshed? then
        Install(w.agent, Stored(client.device, client.refresh, client.refreshExpires), client.accessExpires, s.writing).1
      else w.agent;
    World(if reached then server else w.server, agent, WrittenAfter(w.written, client, s.writing),
          if Misses(reached, reply, client, s.writing) then true else w.lost && !client.Refreshed?)
  }

  function Next(w: World, s: Step): World {
    match s
    case Refresh(_, _, _, _, _, _, _, _, _) => DoRefresh(w, s).1
    case Enroll(_, _, _, _, _, _, _, _, _) => DoEnroll(w, s)
    case Elsewhere(op) => w.(server := I.Do(w.server, op))
  }

  /** With one agent: nobody else enrolls as its device, or trades in a credential of its device. */
  ghost predicate Enabled(w: World, s: Step) {
    match s
    case Refresh(_, _, _, _, _, minted, _, _, _) => minted !in w.server.credentials
    case Enroll(token, name, device, clock, _, minted, ttl, _, _) =>
      w.agent.file.None? && I.Legal(w.server, I.EnrollDevice(token, name, device, minted, clock, ttl))
    case Elsewhere(op) =>
      && I.Legal(w.server, op)
      && (w.agent.file.Some? ==>
            match op
            case EnrollDevice(_, _, device, _, _, _) => device != w.agent.file.value.device
            case RotateToken(spent, _, _, _) =>
              I.Live(w.server, spent) ==> w.server.credentials[spent].device != w.agent.file.value.device
            case _ => true)
  }

  datatype Run = Run(worlds: seq<World>, steps: seq<Step>)

  const START: World := World(I.EMPTY, Agent(None, None, None, 0), {}, false)

  ghost predicate IsRun(run: Run) {
    && |run.worlds| == |run.steps| + 1
    && run.worlds[0] == START
    && (forall k {:trigger run.steps[k]} :: 0 <= k < |run.steps| ==>
          Enabled(run.worlds[k], run.steps[k]) && run.worlds[k + 1] == Next(run.worlds[k], run.steps[k]))
  }

  // ------------------------------------------------------------ the stored token

  /** The token on file is its device's, and live exactly while no issue after it was lost. */
  ghost predicate HeldOk(w: World) {
    w.agent.file.Some? ==>
      var held := w.agent.file.value;
      && held.token in w.server.credentials
      && w.server.credentials[held.token].device == held.device
      && held.token in w.written
      && (I.Live(w.server, held.token) <==> !w.lost)
  }

  /** An access token in memory came with a refresh token that is, or was, on disk. */
  ghost predicate MemoryOk(w: World) {
    w.agent.token.Some? ==> w.agent.token.value in w.written
  }

  ghost predicate Ok(w: World) {
    I.Sound(w.server) && HeldOk(w) && MemoryOk(w)
  }

  lemma RefreshKeeps(w: World, s: Step)
    requires Ok(w) && s.Refresh? && Enabled(w, s)
    ensures Ok(DoRefresh(w, s).1)
  {
    if Asks(w.agent, s.now, s.minimum, s.reading) {
      var token := w.agent.file.value.token;
      I.RotateKeeps(w.server, token, s.minted, s.clock, s.refreshTtl);
      if I.Rotate(w.server, token, s.minted, s.clock, s.refreshTtl).0.Issued? {
        I.ReplaceLeavesOne(w.server, w.server.credentials[token].device, s.minted, s.clock, s.clock + s.refreshTtl);
      }
    }
  }

  lemma EnrollKeeps(w: World, s: Step)
    requires Ok(w) && s.Enroll? && Enabled(w, s)
    ensures Ok(DoEnroll(w, s))
  {
    I.EnrollKeeps(w.server, s.token, s.name, s.device, s.minted, s.clock, s.refreshTtl);
    if I.Enroll(w.server, s.token, s.name, s.device, s.minted, s.clock, s.refreshTtl).0.Issued? {
      I.ReplaceLeavesOne(w.server, s.device, s.minted, s.clock, s.clock + s.refreshTtl);
    }
  }

  lemma ElsewhereKeeps(w: World, op: I.Op)
    requires Ok(w) && Enabled(w, Elsewhere(op))
    ensures Ok(Next(w, Elsewhere(op)))
  {
    I.StepKeeps(w.server, op);
    match op
    case EnrollDevice(token, name, device, minted, now, ttl) =>
      if I.Enroll(w.server, token, name, device, minted, now, ttl).0.Issued? {
        I.ReplaceLeavesOne(w.server, device, minted, now, now + ttl);
      }
    case RotateToken(spent, minted, now, ttl) =>
      if I.Rotate(w.server, spent, minted, now, ttl).0.Issued? {
        I.ReplaceLeavesOne(w.server, w.server.credentials[spent].device, minted, now, now + ttl);
      }
    case _ =>
  }

  lemma {:induction false} RunIsOk(run: Run, k: nat)
    requires IsRun(run) && k < |run.worlds|
    ensures Ok(run.worlds[k])
  {
    if k > 0 {
      RunIsOk(run, k - 1);
      assert Enabled(run.worlds[k - 1], run.steps[k - 1]);
      match run.steps[k - 1]
      case Refresh(_, _, _, _, _, _, _, _, _) => RefreshKeeps(run.worlds[k - 1], run.steps[k - 1]);
      case Enroll(_, _, _, _, _, _, _, _, _) => EnrollKeeps(run.worlds[k - 1], run.steps[k - 1]);
      case Elsewhere(op) => ElsewhereKeeps(run.worlds[k - 1], op);
    }
  }

  /**
    The token on file is the device's one live credential exactly while no issue of the server has
    been lost on the way to the file; an access token in memory always has its refresh token written.
   */
  lemma HeldTokenIsLive(run: Run, k: nat)
    requires IsRun(run) && k < |run.worlds| && run.worlds[k].agent.file.Some?
    ensures var w := run.worlds[k];
            var held := w.agent.file.value;
            && (I.Live(w.server, held.token) <==> !w.lost)
            && (!w.lost ==> forall d :: I.Live(w.server, d) && w.server.credentials[d].device == held.device ==> d == held.token)
            && (w.agent.token.Some? ==> w.agent.token.value in w.written)
  {
    RunIsOk(run, k);
  }

  /** No reply of the server is lost and every write replaces the file. */
  ghost predicate Lossless(s: Step) {
    (s.Refresh? || s.Enroll?) ==> !s.network.ReplyLost? && !s.writing.NotReplaced?
  }

  lemma {:induction false} LosslessHoldsLive(run: Run, k: nat)
    requires IsRun(run) && k < |run.worlds| && forall i :: 0 <= i < |run.steps| ==> Lossless(run.steps[i])
    ensures !run.worlds[k].lost
    ensures run.worlds[k].agent.file.Some? ==> I.Live(run.worlds[k].server, run.worlds[k].agent.file.value.token)
  {
    RunIsOk(run, k);
    if k > 0 {
      LosslessHoldsLive(run, k - 1);
      assert Lossless(run.steps[k - 1]) && run.worlds[k] == Next(run.worlds[k - 1], run.steps[k - 1]);
    }
  }

  /** One refresh keeps the token on file live exactly when the request is lost, or the new token gets to the file. */
  lemma RefreshLosesIff(w: World, s: Step)
    requires Ok(w) && !w.lost && s.Refresh? && Enabled(w, s) && Asks(w.agent, s.now, s.minimum, s.reading)
    requires I.Rotate(w.server, w.agent.file.value.token, s.minted, s.clock, s.refreshTtl).0.Issued?
    ensures var n := DoRefresh(w, s).1;
            n.agent.file.Some? &&
            (I.Live(n.server, n.agent.file.value.token) <==>
               s.network.RequestLost? || (s.network.Delivered? && !s.writing.NotReplaced?))
  {
    RefreshKeeps(w, s);
  }

  /**
    Once an issue is lost, the agent's token is refused whenever a request arrives, and the refusal
    deletes its file, or raises when the file cannot be removed; nothing else changes.
   */
  lemma LostStrands(w: World, s: Step)
    requires Ok(w) && w.lost && s.Refresh? && Enabled(w, s) && Asks(w.agent, s.now, s.minimum, s.reading)
    ensures var (outcome, n) := DoRefresh(w, s);
            && n.server == w.server
            && (s.network.Delivered? && s.reading.removable ==> outcome == NoToken(NeedsEnrollment) && n.agent.file.None?)
            && (s.network.Delivered? && !s.reading.removable ==> outcome == Raised && n == w)
            && (!s.network.Delivered? ==> outcome == NoToken(Transient) && n.agent.file == w.agent.file && n.lost)
  {
  }

  /** An enrollment whose reply is lost has spent its token: enrolling with it again is refused, and the agent has no file. */
  lemma LostEnrollmentIsSpent(w: World, s: Step, again: Step)
    requires Ok(w) && s.Enroll? && Enabled(w, s) && s.network.ReplyLost?
    requires I.Enroll(w.server, s.token, s.name, s.device, s.minted, s.clock, s.refreshTtl).0.Issued?
    requires again.Enroll? && again.token == s.token
    ensures var n := DoEnroll(w, s);
            && n.agent.file.None?
            && I.Enroll(n.server, again.token, again.name, again.device, again.minted, again.clock, again.refreshTtl).0
                 == I.Rejected(I.EnrollmentInvalid)
            && DoEnroll(n, again).agent.file.None?
  {
  }
}
