/** A client database with any number of tabs, a network that loses, delays, duplicates and
    reorders, and the server's account, with writes of other devices in between. */
module EndToEnd {
  import opened Wire
  import opened Sequences
  import opened ClientStore
  import opened Client = ClientRuns
  import ClientSafety
  import Server = BootstrapServer

  function WireOps(ops: seq<Operation>, device: string): seq<Server.Op> {
    seq(|ops|, i requires 0 <= i < |ops| =>
      Server.Op(ops[i].id, device, ops[i].occurredAt, 0, ops[i].wall, ops[i].counter, ops[i].content))
  }

  /** The request the server parses out of a client payload. */
  function Parsed(p: Payload): Server.Request {
    Server.Request(p.requestId, p.deviceId, p.expectedRevision, Some(p.strategy),
      PerDomain(WireOps(p.ops.commands, p.deviceId), WireOps(p.ops.taskOperations, p.deviceId),
                WireOps(p.ops.durationOperations, p.deviceId), WireOps(p.ops.autoStartOperations, p.deviceId),
                WireOps(p.ops.selectedTaskOperations, p.deviceId)),
      p.autoStartPresent, true)
  }

  /** A request on its way: the payload, and the account that it was captured for. */
  datatype Message = Message(user: string, payload: Payload)

  /** What an applied request put into the client's snapshot. */
  datatype Install = Install(user: string, revision: int)

  /** `sent` are the messages that may be on the network, `replies` the success answers that may be: a
      message is never taken out, so it can arrive any number of times or never. `installed`
      remembers what each applied request put into the client's snapshot. */
  datatype System = System(
    client: World, servers: map<string, Server.Account>, sent: set<Message>, replies: set<(Message, Server.Response)>,
    installed: map<string, Install>)

  datatype Event =
    | Tab(action: Action, reply: Option<Server.Response>)
    | Arrive(message: Message, now: int, faults: Server.Faults)
    | Other(user: string, write: Server.Event)

  function Outstanding(resolution: Option<Resolution>): set<Message> {
    if resolution.Some? && resolution.value.state == PossiblyDelivered then
      {Message(resolution.value.userId, resolution.value.payload)}
    else {}
  }

  /** The message whose answer a tab applies. */
  function Answered(input: ApplyInput): Message {
    Message(input.pending.userId, input.pending.payload)
  }

  function Next(engine: Server.Engine, s: System, e: Event): System {
    match e
    case Tab(a, _) =>
      var client := Step(s.client, a);
      s.(client := client,
         sent := s.sent + Outstanding(client.db.resolution),
         installed := if AppliesResolution(s.client.db, a) then
                        var install := Install(a.apply.pending.userId, a.apply.snapshot.revision);
                        s.installed[a.apply.pending.payload.requestId := install]
                      else s.installed)
    case Arrive(m, now, faults) =>
      if m.user !in s.servers then s
      else
        var (account, result) := Server.Resolve(engine, s.servers[m.user], Parsed(m.payload), now, faults);
        s.(servers := s.servers[m.user := account],
           replies := if result.Success? then s.replies + {(m, result.value)} else s.replies)
    case Other(user, write) =>
      if user !in s.servers then s
      else s.(servers := s.servers[user := Server.After(engine, s.servers[user], write)])
  }

  /** Tabs behave as `ClientRuns` asks and apply only what the network delivered for their payload;
      only messages that were sent arrive. Other devices are unrestricted. */
  predicate Possible(s: System, e: Event) {
    match e
    case Tab(a, reply) =>
      Admissible(s.client, a)
      && (a.DoApply? ==> reply.Some? && (Answered(a.apply), reply.value) in s.replies
                         && a.apply.snapshot.revision == reply.value.revision)
    case Arrive(m, _, _) => m in s.sent
    case Other(_, _) => true
  }

  function Run(engine: Server.Engine, s: System, events: seq<Event>): System
    decreases |events|
  {
    if events == [] then s else Next(engine, Run(engine, s, events[..|events| - 1]), events[|events| - 1])
  }

  predicate PossibleRun(engine: Server.Engine, s: System, events: seq<Event>) {
    forall n :: 0 <= n < |events| ==> Possible(Run(engine, s, events[..n]), events[n])
  }

  /** What the server of one account sees of a run. */
  function ServerEvents(events: seq<Event>, user: string): seq<Server.Event>
    decreases |events|
  {
    if events == [] then []
    else
      var shorter, last := ServerEvents(events[..|events| - 1], user), events[|events| - 1];
      match last
      case Tab(_, _) => shorter
      case Arrive(m, now, faults) =>
        if m.user == user then shorter + [Server.Submit(Parsed(m.payload), now, faults)] else shorter
      case Other(u, write) => if u == user then shorter + [write] else shorter
  }

  predicate Start(s: System) {
    Initial(s.client) && s.sent == Outstanding(s.client.db.resolution) && s.replies == {} && s.installed == map[]
  }

  /** The server holds this response for this payload. */
  predicate Recorded(server: Server.Account, p: Payload, response: Server.Response) {
    p.requestId in server.resolutions
    && server.resolutions[p.requestId].response == response
    && Server.Matches(server.resolutions[p.requestId].hash, Parsed(p))
    && Server.ValidRequest(Parsed(p)) && Server.ValidRevision(response.revision)
  }

  /** What the client installed for a request is what the account's server has on record for it. */
  predicate InstallRecorded(s: System, id: string, i: Install) {
    && i.user in s.servers && id in s.servers[i.user].resolutions
    && s.servers[i.user].resolutions[id].response.revision == i.revision
    && exists m :: m in s.sent && m.user == i.user && m.payload.requestId == id
                  && Server.Matches(s.servers[i.user].resolutions[id].hash, Parsed(m.payload))
  }

  predicate SentInv(s: System) {
    && (forall m :: m in s.sent ==> m.payload.requestId in s.client.requestIds)
    && (forall m, n :: m in s.sent && n in s.sent && m.payload.requestId == n.payload.requestId ==> m == n)
    && (s.client.db.resolution.Some? ==>
          var r := s.client.db.resolution.value;
          if r.state == PossiblyDelivered then Message(r.userId, r.payload) in s.sent
          else forall m :: m in s.sent ==> m.payload.requestId != r.payload.requestId)
  }

  predicate ReplyRecorded(s: System, m: Message, response: Server.Response) {
    m in s.sent && m.user in s.servers && Recorded(s.servers[m.user], m.payload, response)
  }

  predicate ReplyInv(s: System) {
    && (forall r :: r in s.replies ==> ReplyRecorded(s, r.0, r.1))
    && (set id | id in s.client.settled) == s.installed.Keys
    && (forall id :: id in s.installed ==> InstallRecorded(s, id, s.installed[id]))
  }

  predicate SystemInv(s: System) {
    Client.Inv(s.client) && SentInv(s) && ReplyInv(s)
  }

  /** What a step records, without looking into the transaction. */
  lemma StepRecords(w: World, a: Action)
    ensures var after := Step(w, a);
            && after.db == Perform(w.db, a)
            && after.requestIds == w.requestIds + RequestIds(after.db.resolution)
            && after.settled
                 == if AppliesResolution(w.db, a) then w.settled + [a.apply.pending.payload.requestId] else w.settled
  {
    hide Perform, AppliesResolution, AppliesSync;
  }

  /** How a stored resolution may come about: it is the request that was already possibly delivered,
      an older one whose payload stays, or a new one with a fresh ID that was not sent. */
  predicate KeepsPayload(before: Option<Resolution>, after: Option<Resolution>, used: set<string>) {
    after.Some? ==>
      || (before.Some? && after.value.payload == before.value.payload && after.value.userId == before.value.userId
          && (before.value.state == PossiblyDelivered ==> after.value.state == PossiblyDelivered))
      || (after.value.state == NeverSent && after.value.payload.requestId !in used)
  }

  /** A tab's step keeps what is known about payloads on the network: an ID names one payload. */
  lemma TabKeepsSent(s: System, a: Action)
    requires Client.Inv(s.client) && Admissible(s.client, a) && SentInv(s)
    ensures SentInv(s.(client := Step(s.client, a), sent := s.sent + Outstanding(Step(s.client, a).db.resolution)))
  {
    hide Step, Perform, Admissible, Client.Inv, AppliesResolution, ClientSafety.InvalidatesForeign;
    var w := s.client;
    StepRecords(w, a);
    StoredIdIsUsed(w);
    if w.db.resolution.Some? && w.db.resolution.value.state == PossiblyDelivered {
      ClientSafety.PossiblyDeliveredIsFixed(w, a);
    } else {
      ResolutionOrigin(w, a);
    }
    SentKept(s, Step(w, a));
  }

  lemma SentKept(s: System, client: World)
    requires SentInv(s) && KeepsPayload(s.client.db.resolution, client.db.resolution, s.client.requestIds)
    requires RequestIds(s.client.db.resolution) <= s.client.requestIds
    requires client.requestIds == s.client.requestIds + RequestIds(client.db.resolution)
    ensures SentInv(s.(client := client, sent := s.sent + Outstanding(client.db.resolution)))
  {
  }

  lemma StoredIdIsUsed(w: World)
    requires Client.Inv(w)
    ensures RequestIds(w.db.resolution) <= w.requestIds
  {
  }

  /** A stored resolution that was not possibly delivered before is either new, with a fresh
      request ID, or the old one under another token, or the old one being sent right now. */
  lemma ResolutionOrigin(w: World, a: Action)
    requires Client.Inv(w) && Admissible(w, a)
    requires w.db.resolution.Some? ==> w.db.resolution.value.state == NeverSent
    ensures var after := Perform(w.db, a).resolution;
            after.Some? ==>
              || (w.db.resolution.Some? && after.value.payload == w.db.resolution.value.payload
                  && after.value.userId == w.db.resolution.value.userId)
              || (after.value.state == NeverSent && after.value.payload.requestId !in w.requestIds)
  {
    hide Mutate, MigratePreferences, ClaimBatch, DiscardClaim, ApplySync, Inv;
    match a
    case DoNormalize(input) =>
    case DoCapture(input) =>
    case DoSend(input) =>
    case _ => OrdinaryKeepsResolution(w.db, a);
  }

  lemma OrdinaryKeepsResolution(db: Db, a: Action)
    ensures a.DoMutate? || a.DoMigrate? || a.DoClaim? || a.DoDiscard? || a.DoSync? ==>
              Perform(db, a).resolution == db.resolution
  {
    hide Normalize, Capture, Send, ApplyResolution, Invalidate, AcquireGate, PutBatch;
  }

  lemma SystemKeepsInv(engine: Server.Engine, s: System, e: Event)
    requires SystemInv(s) && Possible(s, e)
    ensures SystemInv(Next(engine, s, e))
  {
    hide Client.Inv, SentInv, ReplyInv, Server.Resolve, Server.After, Admissible, AppliesResolution, Step, Parsed;
    match e
    case Tab(a, reply) => TabKeepsInv(engine, s, a, reply);
    case Arrive(m, now, faults) => if m.user in s.servers { ArriveKeepsInv(engine, s, m, now, faults); }
    case Other(user, write) => if user in s.servers { OtherKeepsInv(engine, s, user, write); }
  }

  // ---------------------------------------------------------------- the servers

  /** Recorded answers are permanent. */
  predicate Keeps(before: Server.Account, after: Server.Account) {
    && before.resolutions.Keys <= after.resolutions.Keys
    && forall id :: id in before.resolutions ==> after.resolutions[id] == before.resolutions[id]
  }

  lemma ServerKeepsRecords(engine: Server.Engine, account: Server.Account, write: Server.Event)
    ensures Keeps(account, Server.After(engine, account, write))
  {
    if write.Submit? { Server.SubmissionEffects(engine, account, write.request, write.now, write.faults); }
    hide Server.Resolve;
  }

  lemma AnswerIsRecorded(engine: Server.Engine, account: Server.Account, p: Payload, now: int, faults: Server.Faults)
    ensures var (after, result) := Server.Resolve(engine, account, Parsed(p), now, faults);
            Keeps(account, after) && (result.Success? ==> Recorded(after, p, result.value))
  {
    ServerKeepsRecords(engine, account, Server.Submit(Parsed(p), now, faults));
    Server.SubmissionEffects(engine, account, Parsed(p), now, faults);
    Server.MatchesRecordedIffSamePayload(Parsed(p), Parsed(p));
    SamePayloadAsItself(Parsed(p));
    assert Parsed(p).requestId == p.requestId;
    hide Server.Resolve, Server.Matches, Server.SamePayload, Parsed, Keeps, Server.ValidRequest, Server.CurrentHash;
  }

  lemma SamePayloadAsItself(r: Server.Request)
    ensures Server.SamePayload(r, r)
  {
  }

  lemma RecordKept(before: Server.Account, after: Server.Account, p: Payload, response: Server.Response)
    requires Keeps(before, after) && Recorded(before, p, response)
    ensures Recorded(after, p, response)
  {
    hide Parsed, Server.Matches;
  }

  /** Replies on the network stay true. */
  lemma ServerKeepsReplies(s: System, user: string, account: Server.Account)
    requires ReplyInv(s) && user in s.servers && Keeps(s.servers[user], account)
    ensures ReplyInv(s.(servers := s.servers[user := account]))
  {
    var after := s.(servers := s.servers[user := account]);
    hide Parsed, Server.Matches, Recorded, Server.ValidRequest;
    forall r | r in s.replies ensures ReplyRecorded(after, r.0, r.1) {
      assert ReplyRecorded(s, r.0, r.1);
      if r.0.user == user { RecordKept(s.servers[user], account, r.0.payload, r.1); }
    }
    forall id | id in s.installed ensures InstallRecorded(after, id, s.installed[id]) {
      InstallKept(s, user, account, id, s.installed[id]);
    }
  }

  lemma InstallKept(s: System, user: string, account: Server.Account, id: string, i: Install)
    requires InstallRecorded(s, id, i) && user in s.servers && Keeps(s.servers[user], account)
    ensures InstallRecorded(s.(servers := s.servers[user := account]), id, i)
  {
    hide Parsed, Server.Matches;
    var m :| m in s.sent && m.user == i.user && m.payload.requestId == id
             && Server.Matches(s.servers[i.user].resolutions[id].hash, Parsed(m.payload));
  }

  lemma SentUnaffected(s: System, after: System)
    requires SentInv(s) && after.client == s.client && after.sent == s.sent
    ensures SentInv(after)
  {
  }

  lemma OtherKeepsInv(engine: Server.Engine, s: System, user: string, write: Server.Event)
    requires SystemInv(s) && user in s.servers
    ensures SystemInv(s.(servers := s.servers[user := Server.After(engine, s.servers[user], write)]))
  {
    hide Client.Inv, SentInv, ReplyInv, Server.After, Keeps;
    ServerKeepsRecords(engine, s.servers[user], write);
    ServerKeepsReplies(s, user, Server.After(engine, s.servers[user], write));
    SentUnaffected(s, s.(servers := s.servers[user := Server.After(engine, s.servers[user], write)]));
  }

  lemma ArriveKeepsInv(engine: Server.Engine, s: System, m: Message, now: int, faults: Server.Faults)
    requires SystemInv(s) && m in s.sent && m.user in s.servers
    ensures SystemInv(Next(engine, s, Arrive(m, now, faults)))
  {
    var (account, result) := Server.Resolve(engine, s.servers[m.user], Parsed(m.payload), now, faults);
    hide Client.Inv, SentInv, ReplyInv, Server.Resolve, Recorded, Parsed, Keeps;
    AnswerIsRecorded(engine, s.servers[m.user], m.payload, now, faults);
    ServerKeepsReplies(s, m.user, account);
    var after := s.(servers := s.servers[m.user := account]);
    if result.Success? { AnswerKeepsReplies(after, m, result.value); }
    SentUnaffected(s, Next(engine, s, Arrive(m, now, faults)));
  }

  lemma AnswerKeepsReplies(s: System, m: Message, response: Server.Response)
    requires ReplyInv(s) && ReplyRecorded(s, m, response)
    ensures ReplyInv(s.(replies := s.replies + {(m, response)}))
  {
    hide Recorded, InstallRecorded;
    var after := s.(replies := s.replies + {(m, response)});
    forall id | id in s.installed ensures InstallRecorded(after, id, s.installed[id]) {
      InstallOnMore(s, after, id, s.installed[id]);
    }
  }

  lemma InstallOnMore(s: System, after: System, id: string, i: Install)
    requires InstallRecorded(s, id, i) && after.servers == s.servers && s.sent <= after.sent
    ensures InstallRecorded(after, id, i)
  {
    hide Parsed, Server.Matches;
  }

  // ---------------------------------------------------------------- the tabs

  lemma TabKeepsInv(engine: Server.Engine, s: System, a: Action, reply: Option<Server.Response>)
    requires SystemInv(s) && Possible(s, Tab(a, reply))
    ensures SystemInv(Next(engine, s, Tab(a, reply)))
  {
    hide Client.Inv, ReplyInv, Step, Admissible, AppliesResolution;
    StepKeepsInv(s.client, a);
    TabKeepsSent(s, a);
    TabKeepsReplies(engine, s, a, reply);
  }

  /** Applying a reply that is on record adds an entry that is on record. */
  lemma SettlingKeepsReplies(s: System, after: System, m: Message, response: Server.Response)
    requires ReplyInv(s) && (m, response) in s.replies
    requires after.servers == s.servers && after.replies == s.replies && s.sent <= after.sent
    requires after.client.settled == s.client.settled + [m.payload.requestId]
    requires after.installed == s.installed[m.payload.requestId := Install(m.user, response.revision)]
    ensures ReplyInv(after)
  {
    assert ReplyRecorded(s, m, response);
    SettledMore(s.client.settled, m.payload.requestId);
    assert after.installed.Keys == s.installed.Keys + {m.payload.requestId};
    assert InstallRecorded(s, m.payload.requestId, Install(m.user, response.revision)) by {
      hide Parsed, Server.Matches, Server.ValidRequest;
    }
    hide Recorded, InstallRecorded;
    forall id | id in after.installed ensures InstallRecorded(after, id, after.installed[id]) {
      InstallOnMore(s, after, id, after.installed[id]);
    }
  }

  lemma SettledMore(settled: seq<string>, id: string)
    ensures (set x | x in settled + [id]) == (set x | x in settled) + {id}
  {
  }

  lemma QuietKeepsReplies(s: System, after: System)
    requires ReplyInv(s) && after.servers == s.servers && after.replies == s.replies && s.sent <= after.sent
    requires after.client.settled == s.client.settled && after.installed == s.installed
    ensures ReplyInv(after)
  {
    hide Recorded, InstallRecorded;
    forall id | id in s.installed ensures InstallRecorded(after, id, s.installed[id]) {
      InstallOnMore(s, after, id, s.installed[id]);
    }
  }

  lemma TabKeepsReplies(engine: Server.Engine, s: System, a: Action, reply: Option<Server.Response>)
    requires SystemInv(s) && Possible(s, Tab(a, reply))
    ensures ReplyInv(Next(engine, s, Tab(a, reply)))
  {
    hide Step, Perform, Admissible, Client.Inv, SentInv, ReplyInv;
    StepRecords(s.client, a);
    var after := Next(engine, s, Tab(a, reply));
    if AppliesResolution(s.client.db, a) {
      SettlingKeepsReplies(s, after, Answered(a.apply), reply.value);
    } else {
      QuietKeepsReplies(s, after);
    }
  }

  // ---------------------------------------------------------------- runs

  lemma {:induction false} RunKeepsInv(engine: Server.Engine, s: System, events: seq<Event>)
    requires Start(s) && PossibleRun(engine, s, events)
    ensures SystemInv(Run(engine, s, events))
    decreases |events|
  {
    hide Next, Possible, Client.Inv;
    if events == [] {
      StartHolds(s);
    } else {
      var shorter := events[..|events| - 1];
      assert forall n :: 0 <= n < |shorter| ==> shorter[..n] == events[..n];
      RunKeepsInv(engine, s, shorter);
      SystemKeepsInv(engine, Run(engine, s, shorter), events[|events| - 1]);
    }
  }

  lemma StartHolds(s: System)
    requires Start(s)
    ensures SystemInv(s)
  {
  }

  /** One server's part of a run is a run of that server alone. */
  lemma {:induction false} ServerRun(engine: Server.Engine, s: System, events: seq<Event>, user: string)
    requires user in s.servers
    ensures user in Run(engine, s, events).servers
    ensures Run(engine, s, events).servers[user] == Server.Run(engine, s.servers[user], ServerEvents(events, user))
    decreases |events|
  {
    hide Step, AppliesResolution, Server.Resolve, Parsed;
    if events != [] {
      var shorter, last := events[..|events| - 1], events[|events| - 1];
      ServerRun(engine, s, shorter, user);
      var before := ServerEvents(shorter, user);
      if last.Arrive? && last.message.user == user {
        SnocRun(engine, s.servers[user], before, Server.Submit(Parsed(last.message.payload), last.now, last.faults));
      } else if last.Other? && last.user == user {
        SnocRun(engine, s.servers[user], before, last.write);
      }
    }
  }

  lemma SnocRun(engine: Server.Engine, account: Server.Account, before: seq<Server.Event>, e: Server.Event)
    ensures Server.Run(engine, account, before + [e]) == Server.After(engine, Server.Run(engine, account, before), e)
  {
    assert (before + [e])[..|before|] == before;
  }

  /** No account appears in a run. */
  lemma {:induction false} ServersStay(engine: Server.Engine, s: System, events: seq<Event>)
    ensures Run(engine, s, events).servers.Keys == s.servers.Keys
    decreases |events|
  {
    hide Step, AppliesResolution, Server.Resolve, Server.After, Parsed;
    if events != [] { ServersStay(engine, s, events[..|events| - 1]); }
  }

  /** End to end, in every run with any number of accounts: the client applies each request ID at most
      once; every server applies it at most once and raises the revision for it by at most one; and
      whatever the client applied, the server of the account it was captured for has on record for
      its payload, with the revision the client installed. */
  lemma AtMostOnceEndToEnd(engine: Server.Engine, s: System, events: seq<Event>, id: string)
    requires Start(s) && PossibleRun(engine, s, events)
    ensures var after := Run(engine, s, events);
            && Distinct(after.client.settled)
            && (forall user :: user in s.servers ==>
                  && Server.Applications(engine, s.servers[user], ServerEvents(events, user), id) <= 1
                  && 0 <= Server.Bumps(engine, s.servers[user], ServerEvents(events, user), id) <= 1)
            && (id in after.client.settled ==>
                  && id in after.installed && after.installed[id].user in s.servers
                  && InstallRecorded(after, id, after.installed[id])
                  && var user := after.installed[id].user;
                     id !in s.servers[user].resolutions ==>
                       Server.Applications(engine, s.servers[user], ServerEvents(events, user), id) == 1)
            && forall m, n :: m in after.sent && n in after.sent && m.payload.requestId == n.payload.requestId == id ==>
                  m == n
  {
    hide *;
    var after := Run(engine, s, events);
    RunKeepsInv(engine, s, events);
    InvMeans(after, id);
    ServersStay(engine, s, events);
    forall user | user in s.servers
      ensures Server.Applications(engine, s.servers[user], ServerEvents(events, user), id) <= 1
      ensures 0 <= Server.Bumps(engine, s.servers[user], ServerEvents(events, user), id) <= 1
      ensures user in after.servers && (id in after.servers[user].resolutions && id !in s.servers[user].resolutions ==>
                Server.Applications(engine, s.servers[user], ServerEvents(events, user), id) == 1)
    {
      ServerRun(engine, s, events, user);
      Server.AtMostOnce(engine, s.servers[user], ServerEvents(events, user), id);
    }
  }

  lemma InvMeans(s: System, id: string)
    requires SystemInv(s)
    ensures Distinct(s.client.settled)
    ensures id in s.client.settled ==>
              id in s.installed && InstallRecorded(s, id, s.installed[id]) && s.installed[id].user in s.servers
                  && id in s.servers[s.installed[id].user].resolutions
    ensures forall m, n :: m in s.sent && n in s.sent && m.payload.requestId == n.payload.requestId == id ==> m == n
  {
    hide Recorded, Parsed, Server.Matches;
    assert id in s.client.settled ==> id in s.installed.Keys;
  }

  /** No reply is ever taken back. */
  lemma {:induction false} RepliesGrow(engine: Server.Engine, s: System, events: seq<Event>, more: seq<Event>)
    ensures Run(engine, s, events).replies <= Run(engine, s, events + more).replies
    decreases |more|
  {
    hide *;
    if more == [] {
      assert events + more == events;
    } else {
      var longer := events + [more[0]];
      RunSnoc(engine, s, events, more[0]);
      NextKeepsReplies(engine, Run(engine, s, events), more[0]);
      RepliesGrow(engine, s, longer, more[1..]);
      assert longer + more[1..] == events + more;
    }
  }

  lemma RunSnoc(engine: Server.Engine, s: System, events: seq<Event>, e: Event)
    ensures Run(engine, s, events + [e]) == Next(engine, Run(engine, s, events), e)
  {
    hide Next;
    assert (events + [e])[..|events|] == events;
  }

  lemma NextKeepsReplies(engine: Server.Engine, s: System, e: Event)
    ensures s.replies <= Next(engine, s, e).replies
  {
    hide Step, AppliesResolution, Server.Resolve, Server.After, Parsed;
  }

  /** Once a request was answered, every later arrival of it, at any point of any run that goes on from
      there, changes nothing and gets the same answer, whatever the account's revision is by then. */
  lemma RetryIsAnsweredForever(engine: Server.Engine, s: System, events: seq<Event>, more: seq<Event>, m: Message,
      response: Server.Response, now: int, faults: Server.Faults)
    requires Start(s) && PossibleRun(engine, s, events + more)
    requires (m, response) in Run(engine, s, events).replies && !faults(Server.BeginTx) && !faults(Server.Lookup)
    ensures var after := Run(engine, s, events + more);
            && m.user in after.servers
            && Server.Resolve(engine, after.servers[m.user], Parsed(m.payload), now, faults)
                 == (after.servers[m.user], Success(response))
            && Next(engine, after, Arrive(m, now, faults)) == after
  {
    var after := Run(engine, s, events + more);
    hide Run, PossibleRun, Start, Client.Inv, SentInv, Server.Resolve;
    RepliesGrow(engine, s, events, more);
    RunKeepsInv(engine, s, events + more);
    assert ReplyRecorded(after, m, response);
    var account := after.servers[m.user];
    Server.RetryIsAnswered(engine, account, Parsed(m.payload), now, faults);
    Server.SubmissionEffects(engine, account, Parsed(m.payload), now, faults);
    assert after.servers[m.user := account] == after.servers;
    assert after.replies + {(m, response)} == after.replies;
  }
}
