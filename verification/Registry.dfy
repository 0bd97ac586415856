/** The server's registries of secret providers and the brokering of direct paths between them and
    consumers (vendored-from-bore/secret.rs:62-180, 203-220, 285-321, 477-536).

    A provider registers under an id and may offer UDP candidates, again and again; each offer goes
    into the UDP registry together with a nonce and the sending end of a channel. When a provider
    leaves, it drops the receiving end of its channel, then its entry in the registry, then the
    entry in the UDP registry; others may run in between. Connections, ids, addresses and nonces
    are numbers. */
module Registry {
  import opened Common

  type Conn = nat
  type Id = nat
  type Chan = nat
  type Nonce = nat
  type Candidates = seq<nat>

  const CHANNEL_CAPACITY: nat := 4

  datatype Phase =
    | Live
    | Leaving      // its channel is closed, both entries are still there
    | Unlisted     // the registry entry is gone, the UDP entry may still be there
    | Gone
    | Rejected

  /** `offers` is the receiving end of the provider's channel. */
  datatype Provider = Provider(id: Id, phase: Phase, offered: bool, offers: Option<Chan>)

  datatype UdpReg = UdpReg(candidates: Candidates, stun: Option<nat>, nonce: Nonce, toProvider: Chan)

  datatype UdpOffer = UdpOffer(nonce: Nonce, peerCandidates: Candidates, peerStun: Option<nat>)

  datatype CandidateOffer = CandidateOffer(candidates: Candidates, stun: Option<nat>)

  /** A channel knows who made it and the nonce that goes with it. */
  datatype Channel = Channel(owner: Conn, nonce: Nonce, queue: seq<UdpOffer>, open: bool)

  /** A consumer's offer that is being brokered, with the provider's entry as it was looked up. */
  datatype Brokering = Brokering(id: Id, offer: CandidateOffer, found: UdpReg)

  datatype Answer =
    | UdpUnavailable(consumer: Conn)
    | UdpPunch(consumer: Conn, id: Id, offer: CandidateOffer, nonce: Nonce, peer: Candidates)

  datatype State = State(
    registry: map<Id, Conn>,
    udp: map<Id, UdpReg>,
    providers: map<Conn, Provider>,
    channels: seq<Channel>,
    brokering: map<Conn, Brokering>,
    queued: set<(Chan, UdpOffer)>,     // every offer ever queued to a provider
    answers: seq<Answer>,              // every reply ever sent to a consumer
    answered: multiset<Conn>,          // the consumers it was sent to
    asked: multiset<Conn>)             // the consumers an offer was received from

  datatype Step =
    | Register(conn: Conn, id: Id)
    | Offer(conn: Conn, offer: CandidateOffer, freshNonce: Nonce)
    | TakeOffer(conn: Conn)
    | Lookup(consumer: Conn, id: Id, offer: CandidateOffer)
    | Forward(consumer: Conn)
    | Leave(conn: Conn)
    | Unlist(conn: Conn)
    | Forget(conn: Conn)

  predicate InPhase(s: State, conn: Conn, phase: Phase) {
    conn in s.providers && s.providers[conn].phase == phase
  }

  predicate Enabled(s: State, step: Step) {
    match step
    case Register(conn, _) => conn !in s.providers
    case Offer(conn, _, _) => InPhase(s, conn, Live)
    case TakeOffer(conn) =>
      && InPhase(s, conn, Live) && s.providers[conn].offers.Some?
      && s.providers[conn].offers.value < |s.channels|
      && |s.channels[s.providers[conn].offers.value].queue| > 0
    case Lookup(consumer, _, _) => consumer !in s.brokering
    case Forward(consumer) =>
      && consumer in s.brokering && s.brokering[consumer].found.toProvider < |s.channels|
      && var channel := s.channels[s.brokering[consumer].found.toProvider];
         channel.open ==> |channel.queue| < CHANNEL_CAPACITY
    case Leave(conn) => InPhase(s, conn, Live)
    case Unlist(conn) => InPhase(s, conn, Leaving)
    case Forget(conn) => InPhase(s, conn, Unlisted)
  }

  function Close(channels: seq<Channel>, end: Option<Chan>): seq<Channel> {
    if end.Some? && end.value < |channels| then channels[end.value := channels[end.value].(open := false)] else channels
  }

  /** `registry.entry(id)`: occupied means rejected. */
  function AfterRegister(s: State, conn: Conn, id: Id): State {
    if id in s.registry then s.(providers := s.providers[conn := Provider(id, Rejected, false, None)])
    else s.(registry := s.registry[id := conn], providers := s.providers[conn := Provider(id, Live, false, None)])
  }

  /** An existing entry lends its nonce and its channel to the new one. */
  function OfferedEntry(udp: map<Id, UdpReg>, id: Id, offer: CandidateOffer, freshNonce: Nonce, freshChan: Chan): UdpReg {
    if id in udp then UdpReg(offer.candidates, offer.stun, udp[id].nonce, udp[id].toProvider)
    else UdpReg(offer.candidates, offer.stun, freshNonce, freshChan)
  }

  /** `register_provider_udp_offer`; a receiver that is replaced is closed. */
  function AfterOffer(s: State, conn: Conn, offer: CandidateOffer, freshNonce: Nonce): State
    requires InPhase(s, conn, Live)
  {
    var p := s.providers[conn];
    var chan := |s.channels|;
    var udp := s.udp[p.id := OfferedEntry(s.udp, p.id, offer, freshNonce, chan)];
    if p.id in s.udp then s.(udp := udp, providers := s.providers[conn := p.(offered := true)])
    else
      s.(udp := udp,
         channels := Close(s.channels, p.offers) + [Channel(conn, freshNonce, [], true)],
         providers := s.providers[conn := p.(offered := true, offers := Some(chan))])
  }

  function Reply(s: State, answer: Answer): State {
    s.(answers := s.answers + [answer], answered := s.answered + multiset{answer.consumer})
  }

  function AfterLookup(s: State, consumer: Conn, id: Id, offer: CandidateOffer): State {
    var s1 := s.(asked := s.asked + multiset{consumer});
    if id in s.udp then s1.(brokering := s.brokering[consumer := Brokering(id, offer, s.udp[id])])
    else Reply(s1, UdpUnavailable(consumer))
  }

  function AfterForward(s: State, consumer: Conn): State
    requires Enabled(s, Forward(consumer))
  {
    var b := s.brokering[consumer];
    var chan := b.found.toProvider;
    var channel := s.channels[chan];
    var rest := s.(brokering := s.brokering - {consumer});
    if !channel.open then Reply(rest, UdpUnavailable(consumer))
    else
      var offer := UdpOffer(b.found.nonce, b.offer.candidates, b.offer.stun);
      var queued := rest.(channels := s.channels[chan := channel.(queue := channel.queue + [offer])],
                          queued := s.queued + {(chan, offer)});
      Reply(queued, UdpPunch(consumer, b.id, b.offer, b.found.nonce, b.found.candidates))
  }

  function Apply(s: State, step: Step): State
    requires Enabled(s, step)
  {
    match step
    case Register(conn, id) => AfterRegister(s, conn, id)
    case Offer(conn, offer, freshNonce) => AfterOffer(s, conn, offer, freshNonce)
    case TakeOffer(conn) =>
      var chan := s.providers[conn].offers.value;
      s.(channels := s.channels[chan := s.channels[chan].(queue := s.channels[chan].queue[1..])])
    case Lookup(consumer, id, offer) => AfterLookup(s, consumer, id, offer)
    case Forward(consumer) => AfterForward(s, consumer)
    case Leave(conn) =>
      s.(channels := Close(s.channels, s.providers[conn].offers),
         providers := s.providers[conn := s.providers[conn].(phase := Leaving)])
    case Unlist(conn) =>
      s.(registry := s.registry - {s.providers[conn].id},
         providers := s.providers[conn := s.providers[conn].(phase := Unlisted)])
    case Forget(conn) =>
      s.(udp := s.udp - {s.providers[conn].id},
         providers := s.providers[conn := s.providers[conn].(phase := Gone)])
  }

  const INITIAL := State(map[], map[], map[], [], map[], {}, [], multiset{}, multiset{})

  predicate Schedule(s: State, steps: seq<Step>)
    decreases |steps|
  {
    |steps| > 0 ==> Enabled(s, steps[0]) && Schedule(Apply(s, steps[0]), steps[1..])
  }

  function Outcome(s: State, steps: seq<Step>): State
    requires Schedule(s, steps)
    decreases |steps|
  {
    if |steps| == 0 then s else Outcome(Apply(s, steps[0]), steps[1..])
  }

  // ----------------------------------------------------------------- what holds in every schedule

  predicate Listed(p: Provider) {
    p.phase.Live? || p.phase.Leaving?
  }

  /** The registry holds exactly the listed providers, so no id has two. */
  predicate RegistryOk(s: State) {
    && (forall id :: id in s.registry ==>
          s.registry[id] in s.providers && s.providers[s.registry[id]].id == id && Listed(s.providers[s.registry[id]]))
    && (forall conn :: conn in s.providers && Listed(s.providers[conn]) ==>
          s.providers[conn].id in s.registry && s.registry[s.providers[conn].id] == conn)
  }

  predicate RegOk(channels: seq<Channel>, r: UdpReg) {
    r.toProvider < |channels| && channels[r.toProvider].nonce == r.nonce
  }

  /** Each channel has one nonce, which everything that names the channel carries. */
  predicate NoncesOk(s: State) {
    && (forall id :: id in s.udp ==> RegOk(s.channels, s.udp[id]))
    && (forall k :: k in s.brokering ==> RegOk(s.channels, s.brokering[k].found))
    && (forall q :: q in s.queued ==> q.0 < |s.channels| && s.channels[q.0].nonce == q.1.nonce)
  }

  predicate OwnerHasId(s: State, chan: Chan, id: Id) {
    && chan < |s.channels|
    && s.channels[chan].owner in s.providers
    && s.providers[s.channels[chan].owner].id == id
  }

  /** A channel found under an id was made by a provider of that id. */
  predicate OwnersOk(s: State) {
    && (forall id :: id in s.udp ==> OwnerHasId(s, s.udp[id].toProvider, id))
    && (forall k :: k in s.brokering ==> OwnerHasId(s, s.brokering[k].found.toProvider, s.brokering[k].id))
  }

  /** The offer behind a punch was queued to the channel of a provider of the wanted id. */
  predicate Backed(s: State, a: Answer) {
    a.UdpPunch? ==>
      exists q :: q in s.queued && q.1 == UdpOffer(a.nonce, a.offer.candidates, a.offer.stun) && OwnerHasId(s, q.0, a.id)
  }

  predicate AnswersOk(s: State) {
    forall k :: 0 <= k < |s.answers| ==> Backed(s, s.answers[k])
  }

  /** One reply per offer; at most one offer of a consumer is unanswered. */
  ghost predicate OneReplyEach(s: State) {
    forall k: Conn :: s.asked[k] == s.answered[k] + if k in s.brokering then 1 else 0
  }

  ghost predicate Inv(s: State) {
    RegistryOk(s) && NoncesOk(s) && OwnersOk(s) && AnswersOk(s) && OneReplyEach(s)
  }

  lemma RegistryStep(s: State, step: Step)
    requires RegistryOk(s) && Enabled(s, step)
    ensures RegistryOk(Apply(s, step))
  {
    match step
    case Register(conn, id) => RegistryAfterRegister(s, conn, id);
    case Unlist(conn) => RegistryAfterUnlist(s, conn);
    case _ => RegistryElsewhere(s, step);
  }

  lemma RegistryAfterRegister(s: State, conn: Conn, id: Id)
    requires RegistryOk(s) && conn !in s.providers
    ensures RegistryOk(AfterRegister(s, conn, id))
  {
  }

  lemma RegistryAfterUnlist(s: State, conn: Conn)
    requires RegistryOk(s) && Enabled(s, Unlist(conn))
    ensures RegistryOk(Apply(s, Unlist(conn)))
  {
  }

  /** No other step lists or unlists a provider. */
  lemma RegistryElsewhere(s: State, step: Step)
    requires RegistryOk(s) && Enabled(s, step) && !step.Register? && !step.Unlist?
    ensures RegistryOk(Apply(s, step))
  {
    ListingKept(s, step);
  }

  lemma ListingKept(s: State, step: Step)
    requires Enabled(s, step) && !step.Register? && !step.Unlist?
    ensures var s' := Apply(s, step);
            && s'.registry == s.registry && s'.providers.Keys == s.providers.Keys
            && forall c :: c in s.providers ==> SameListing(s.providers[c], s'.providers[c])
  {
    if OfProvider(step) {
      OneProviderChanges(s, step);
    }
  }

  predicate SameListing(p: Provider, q: Provider) {
    q.id == p.id && Listed(q) == Listed(p)
  }

  predicate OfProvider(step: Step) {
    step.Register? || step.Offer? || step.Leave? || step.Unlist? || step.Forget?
  }

  lemma OneProviderChanges(s: State, step: Step)
    requires Enabled(s, step) && OfProvider(step)
    ensures var s' := Apply(s, step); step.conn in s'.providers && s'.providers == s.providers[step.conn := s'.providers[step.conn]]
  {
  }

  /** No step changes the owner or the nonce of a channel. */
  lemma ChannelsKept(s: State, step: Step)
    requires Enabled(s, step)
    ensures var s' := Apply(s, step);
            && |s.channels| <= |s'.channels|
            && forall c :: 0 <= c < |s.channels| ==>
                 s'.channels[c].nonce == s.channels[c].nonce && s'.channels[c].owner == s.channels[c].owner
  {
    if step.Leave? || step.Offer? {
      CloseKeepsNonces(s.channels, s.providers[step.conn].offers);
    }
  }

  /** What steps other than offers and brokering do to the rest of the state: entries may go. */
  lemma EntriesOnlyGo(s: State, step: Step)
    requires Enabled(s, step) && !step.Offer? && !step.Lookup? && !step.Forward?
    ensures var s' := Apply(s, step);
            && s'.brokering == s.brokering && s'.queued == s.queued && s'.answers == s.answers
            && s'.asked == s.asked && s'.answered == s.answered
            && forall id :: id in s'.udp ==> id in s.udp && s'.udp[id] == s.udp[id]
  {
  }

  lemma CloseKeepsNonces(channels: seq<Channel>, end: Option<Chan>)
    ensures |Close(channels, end)| == |channels|
    ensures forall c :: 0 <= c < |channels| ==>
              Close(channels, end)[c].nonce == channels[c].nonce && Close(channels, end)[c].owner == channels[c].owner
  {
  }

  lemma NoncesStep(s: State, step: Step)
    requires NoncesOk(s) && Enabled(s, step)
    ensures NoncesOk(Apply(s, step))
  {
    ChannelsKept(s, step);
    match step
    case Offer(conn, offer, freshNonce) => NoncesAfterOffer(s, conn, offer, freshNonce);
    case Forward(consumer) => NoncesAfterForward(s, consumer);
    case Lookup(consumer, id, offer) => NoncesAfterLookup(s, consumer, id, offer);
    case _ => NoncesElsewhere(s, step);
  }

  lemma NoncesAfterOffer(s: State, conn: Conn, offer: CandidateOffer, freshNonce: Nonce)
    requires NoncesOk(s) && InPhase(s, conn, Live)
    ensures NoncesOk(AfterOffer(s, conn, offer, freshNonce))
  {
    CloseKeepsNonces(s.channels, s.providers[conn].offers);
    var s' := AfterOffer(s, conn, offer, freshNonce);
    assert forall c :: 0 <= c < |s.channels| ==> s'.channels[c].nonce == s.channels[c].nonce;
  }

  lemma NoncesAfterForward(s: State, consumer: Conn)
    requires NoncesOk(s) && Enabled(s, Forward(consumer))
    ensures NoncesOk(AfterForward(s, consumer))
  {
    var s' := AfterForward(s, consumer);
    assert forall c :: 0 <= c < |s.channels| ==> s'.channels[c].nonce == s.channels[c].nonce;
  }

  lemma NoncesAfterLookup(s: State, consumer: Conn, id: Id, offer: CandidateOffer)
    requires NoncesOk(s)
    ensures NoncesOk(AfterLookup(s, consumer, id, offer))
  {
  }

  lemma NoncesElsewhere(s: State, step: Step)
    requires NoncesOk(s) && Enabled(s, step) && !step.Offer? && !step.Lookup? && !step.Forward?
    ensures NoncesOk(Apply(s, step))
  {
    EntriesOnlyGo(s, step);
    ChannelsKept(s, step);
  }

  lemma ProvidersKept(s: State, step: Step)
    requires Enabled(s, step)
    ensures forall c :: c in s.providers ==>
              c in Apply(s, step).providers && Apply(s, step).providers[c].id == s.providers[c].id
  {
  }

  lemma OwnersStay(s: State, step: Step, chan: Chan, id: Id)
    requires Enabled(s, step) && OwnerHasId(s, chan, id)
    ensures OwnerHasId(Apply(s, step), chan, id)
  {
    ChannelsKept(s, step);
    ProvidersKept(s, step);
  }

  /** An entry after a step was there before, or is new and belongs to the provider that offers. */
  lemma EntryBefore(s: State, step: Step, id: Id)
    requires Enabled(s, step) && id in Apply(s, step).udp
    ensures id in s.udp ==> Apply(s, step).udp[id].toProvider == s.udp[id].toProvider
    ensures id !in s.udp ==> OwnerHasId(Apply(s, step), Apply(s, step).udp[id].toProvider, id)
  {
    if !step.Offer? && !step.Lookup? && !step.Forward? {
      EntriesOnlyGo(s, step);
    }
  }

  lemma OwnersStep(s: State, step: Step)
    requires OwnersOk(s) && Enabled(s, step)
    ensures OwnersOk(Apply(s, step))
  {
    var s' := Apply(s, step);
    forall id | id in s'.udp
      ensures OwnerHasId(s', s'.udp[id].toProvider, id)
    {
      EntryBefore(s, step, id);
      if id in s.udp {
        OwnersStay(s, step, s.udp[id].toProvider, id);
      }
    }
    forall k | k in s'.brokering
      ensures OwnerHasId(s', s'.brokering[k].found.toProvider, s'.brokering[k].id)
    {
      BrokeringBefore(s, step, k);
      OwnersStay(s, step, s'.brokering[k].found.toProvider, s'.brokering[k].id);
    }
  }

  lemma BrokeringBefore(s: State, step: Step, k: Conn)
    requires OwnersOk(s) && Enabled(s, step) && k in Apply(s, step).brokering
    ensures var b := Apply(s, step).brokering[k]; OwnerHasId(s, b.found.toProvider, b.id)
  {
    if !step.Offer? && !step.Lookup? && !step.Forward? {
      EntriesOnlyGo(s, step);
    }
  }

  lemma AnswersStep(s: State, step: Step)
    requires AnswersOk(s) && OwnersOk(s) && Enabled(s, step)
    ensures AnswersOk(Apply(s, step))
  {
    var s' := Apply(s, step);
    forall k | 0 <= k < |s'.answers|
      ensures Backed(s', s'.answers[k])
    {
      var a := s'.answers[k];
      if k < |s.answers| {
        assert Backed(s, a);
        if a.UdpPunch? {
          var q :| q in s.queued && q.1 == UdpOffer(a.nonce, a.offer.candidates, a.offer.stun) && OwnerHasId(s, q.0, a.id);
          OwnersStay(s, step, q.0, a.id);
          assert q in s'.queued;
        }
      } else if a.UdpPunch? {
        var b := s.brokering[step.consumer];
        OwnersStay(s, step, b.found.toProvider, b.id);
        assert (b.found.toProvider, UdpOffer(b.found.nonce, b.offer.candidates, b.offer.stun)) in s'.queued;
      }
    }
  }

  lemma RepliesStep(s: State, step: Step)
    requires OneReplyEach(s) && Enabled(s, step)
    ensures OneReplyEach(Apply(s, step))
  {
    if !step.Offer? && !step.Lookup? && !step.Forward? {
      EntriesOnlyGo(s, step);
    }
  }

  lemma StepKeepsInv(s: State, step: Step)
    requires Inv(s) && Enabled(s, step)
    ensures Inv(Apply(s, step))
  {
    RegistryStep(s, step);
    NoncesStep(s, step);
    OwnersStep(s, step);
    AnswersStep(s, step);
    RepliesStep(s, step);
  }

  /** Induction over schedules. */
  lemma {:induction false} ScheduleKeeps(s: State, steps: seq<Step>, good: State -> bool)
    requires Schedule(s, steps) && good(s)
    requires forall t, step :: good(t) && Enabled(t, step) ==> good(Apply(t, step))
    ensures good(Outcome(s, steps))
    decreases |steps|
  {
    if |steps| > 0 {
      ScheduleKeeps(Apply(s, steps[0]), steps[1..], good);
    }
  }

  lemma ScheduleKeepsInv(s: State, steps: seq<Step>)
    requires Inv(s) && Schedule(s, steps)
    ensures Inv(Outcome(s, steps))
  {
    forall t, step | Inv(t) && Enabled(t, step)
      ensures Inv(Apply(t, step))
    {
      StepKeepsInv(t, step);
    }
    ScheduleKeeps(s, steps, t => Inv(t));
  }

  predicate ListedUnder(s: State, conn: Conn, id: Id) {
    conn in s.providers && Listed(s.providers[conn]) && s.providers[conn].id == id
  }

  ghost predicate OneProviderPerId(s: State) {
    && (forall id, a, b :: ListedUnder(s, a, id) && ListedUnder(s, b, id) ==> a == b)
    && (forall id :: id in s.registry <==> exists conn :: ListedUnder(s, conn, id))
    && (forall id :: id in s.registry ==> ListedUnder(s, s.registry[id], id))
  }

  ghost predicate PunchesAreBacked(s: State) {
    && (forall k :: 0 <= k < |s.answers| ==> Backed(s, s.answers[k]))
    && (forall q :: q in s.queued ==> q.0 < |s.channels| && q.1.nonce == s.channels[q.0].nonce)
  }

  /** In every schedule, with deregistration in pieces: an id maps to the pool of its one listed
      provider; a consumer that is told to punch has had its candidates queued, under the nonce it is
      given, to a provider of the id it asked for, and all offers on that channel carry this nonce; and every offer of a
      consumer gets exactly one reply. */
  lemma RegistryAndBroker(steps: seq<Step>)
    requires Schedule(INITIAL, steps)
    ensures OneProviderPerId(Outcome(INITIAL, steps))
    ensures PunchesAreBacked(Outcome(INITIAL, steps))
    ensures OneReplyEach(Outcome(INITIAL, steps))
  {
    ScheduleKeepsInv(INITIAL, steps);
    var end := Outcome(INITIAL, steps);
    forall id
      ensures id in end.registry <==> exists conn :: ListedUnder(end, conn, id)
    {
      if id in end.registry {
        assert ListedUnder(end, end.registry[id], id);
      }
    }
  }

  /** The state with `conn` in it as a rejected provider. */
  function WithRejected(s: State, conn: Conn, id: Id): State {
    s.(providers := s.providers[conn := Provider(id, Rejected, false, None)])
  }

  predicate By(step: Step, conn: Conn) {
    (step.Register? || step.Offer? || step.TakeOffer? || step.Leave? || step.Unlist? || step.Forget?) && step.conn == conn
  }

  lemma UpdatesSwap(m: map<Conn, Provider>, a: Conn, p: Provider, b: Conn, q: Provider)
    requires a != b
    ensures m[a := p][b := q] == m[b := q][a := p]
  {
  }

  /** A step that is possible beside a rejected provider is not its own and is possible without it. */
  lemma EnabledBesideRejected(s: State, conn: Conn, id: Id, step: Step)
    requires conn !in s.providers && Enabled(WithRejected(s, conn, id), step)
    ensures Enabled(s, step) && !By(step, conn) && conn !in Apply(s, step).providers
  {
  }

  /** And it does the same. */
  lemma StepBesideRejected(s: State, conn: Conn, id: Id, step: Step)
    requires conn !in s.providers && Enabled(WithRejected(s, conn, id), step)
    requires Enabled(s, step) && !By(step, conn)
    ensures Apply(WithRejected(s, conn, id), step) == WithRejected(Apply(s, step), conn, id)
  {
    if OfProvider(step) {
      OneProviderChanges(s, step);
      UpdatesSwap(s.providers, step.conn, Apply(s, step).providers[step.conn], conn, Provider(id, Rejected, false, None));
    }
  }

  lemma {:induction false} RunBesideRejected(s: State, conn: Conn, id: Id, steps: seq<Step>)
    requires conn !in s.providers && Schedule(WithRejected(s, conn, id), steps)
    ensures Schedule(s, steps) && forall k :: 0 <= k < |steps| ==> !By(steps[k], conn)
    ensures Outcome(WithRejected(s, conn, id), steps) == WithRejected(Outcome(s, steps), conn, id)
    decreases |steps|
  {
    if |steps| > 0 {
      EnabledBesideRejected(s, conn, id, steps[0]);
      StepBesideRejected(s, conn, id, steps[0]);
      RunBesideRejected(Apply(s, steps[0]), conn, id, steps[1..]);
    }
  }

  /** A rejected duplicate never does anything: whatever follows would follow without it, step by step,
      and come to the same, the incumbent's entries included. */
  lemma RejectedDuplicateIsInert(s: State, conn: Conn, id: Id, steps: seq<Step>)
    requires Enabled(s, Register(conn, id)) && id in s.registry
    requires Schedule(Apply(s, Register(conn, id)), steps)
    ensures Schedule(s, steps) && forall k :: 0 <= k < |steps| ==> !By(steps[k], conn)
    ensures Outcome(Apply(s, Register(conn, id)), steps) == WithRejected(Outcome(s, steps), conn, id)
  {
    RunBesideRejected(s, conn, id, steps);
  }

  lemma OneStep(s: State, step: Step, rest: seq<Step>)
    requires Enabled(s, step) && Schedule(Apply(s, step), rest)
    ensures Schedule(s, [step] + rest) && Outcome(s, [step] + rest) == Outcome(Apply(s, step), rest)
  {
    assert ([step] + rest)[1..] == rest;
  }

  // ------------------------------------------------------- which providers the broker can reach

  /** The UDP entry of this provider's id is its own, and its channel is open. */
  predicate ReachableProvider(s: State, conn: Conn)
    requires conn in s.providers
  {
    var p := s.providers[conn];
    && p.id in s.udp
    && p.offers == Some(s.udp[p.id].toProvider)
    && s.udp[p.id].toProvider < |s.channels|
    && s.channels[s.udp[p.id].toProvider].owner == conn
    && s.channels[s.udp[p.id].toProvider].open
  }

  /** Another provider of the same id has left the registry but not yet the UDP registry. */
  ghost predicate HalfRemoved(s: State, conn: Conn)
    requires conn in s.providers
  {
    exists other :: other != conn && InPhase(s, other, Unlisted) && s.providers[other].id == s.providers[conn].id
  }

  /** An entry of the UDP registry belongs to a provider of that id that has not left completely. */
  ghost predicate EntriesOwned(s: State) {
    forall id :: id in s.udp ==> s.udp[id].toProvider < |s.channels| && OwnsId(s, s.channels[s.udp[id].toProvider].owner, id)
  }

  predicate OwnsId(s: State, conn: Conn, id: Id) {
    && conn in s.providers && s.providers[conn].id == id && s.providers[conn].offered
    && (Listed(s.providers[conn]) || s.providers[conn].phase.Unlisted?)
  }

  ghost predicate ChannelsOwned(s: State) {
    forall conn :: conn in s.providers && s.providers[conn].offers.Some? ==>
        s.providers[conn].offers.value < |s.channels| && s.channels[s.providers[conn].offers.value].owner == conn
  }

  /** The entry that a live provider owns names its receiver, which is open. */
  ghost predicate LiveOwnersReachable(s: State)
    requires EntriesOwned(s)
  {
    forall id :: id in s.udp && InPhase(s, s.channels[s.udp[id].toProvider].owner, Live) ==>
      ReachableProvider(s, s.channels[s.udp[id].toProvider].owner)
  }

  ghost predicate ReachInv(s: State) {
    RegistryOk(s) && EntriesOwned(s) && ChannelsOwned(s) && LiveOwnersReachable(s)
  }

  lemma OwnsIdStays(s: State, step: Step, conn: Conn, id: Id)
    requires Enabled(s, step) && OwnsId(s, conn, id) && !(step.Forget? && s.providers[step.conn].id == id)
    ensures OwnsId(Apply(s, step), conn, id)
  {
  }

  lemma EntriesAfterOffer(s: State, conn: Conn, offer: CandidateOffer, freshNonce: Nonce)
    requires EntriesOwned(s) && Enabled(s, Offer(conn, offer, freshNonce))
    ensures EntriesOwned(Apply(s, Offer(conn, offer, freshNonce)))
  {
    var step := Offer(conn, offer, freshNonce);
    var s' := Apply(s, step);
    ChannelsKept(s, step);
    forall id | id in s'.udp
      ensures s'.udp[id].toProvider < |s'.channels| && OwnsId(s', s'.channels[s'.udp[id].toProvider].owner, id)
    {
      if id in s.udp {
        assert OwnsId(s, s.channels[s.udp[id].toProvider].owner, id);
        OwnsIdStays(s, step, s.channels[s.udp[id].toProvider].owner, id);
      }
    }
  }

  lemma EntriesElsewhere(s: State, step: Step)
    requires EntriesOwned(s) && Enabled(s, step) && !step.Offer?
    ensures EntriesOwned(Apply(s, step))
  {
    var s' := Apply(s, step);
    ChannelsKept(s, step);
    forall id | id in s'.udp
      ensures s'.udp[id].toProvider < |s'.channels| && OwnsId(s', s'.channels[s'.udp[id].toProvider].owner, id)
    {
      EntryBefore(s, step, id);
      assert id in s.udp && OwnsId(s, s.channels[s.udp[id].toProvider].owner, id);
      OwnsIdStays(s, step, s.channels[s.udp[id].toProvider].owner, id);
    }
  }

  lemma EntriesStep(s: State, step: Step)
    requires EntriesOwned(s) && Enabled(s, step)
    ensures EntriesOwned(Apply(s, step))
  {
    match step
    case Offer(conn, offer, freshNonce) => EntriesAfterOffer(s, conn, offer, freshNonce);
    case _ => EntriesElsewhere(s, step);
  }

  lemma ChannelsStep(s: State, step: Step)
    requires ChannelsOwned(s) && Enabled(s, step)
    ensures ChannelsOwned(Apply(s, step))
  {
    ChannelsKept(s, step);
    var s' := Apply(s, step);
    forall conn | conn in s'.providers && s'.providers[conn].offers.Some?
      ensures s'.providers[conn].offers.value < |s'.channels| && s'.channels[s'.providers[conn].offers.value].owner == conn
    {
      ReceiverBefore(s, step, conn);
    }
  }

  /** A provider's receiver is the one it had, or has just been made for it. */
  lemma ReceiverBefore(s: State, step: Step, conn: Conn)
    requires Enabled(s, step) && conn in Apply(s, step).providers && Apply(s, step).providers[conn].offers.Some?
    ensures var s' := Apply(s, step);
            var chan := s'.providers[conn].offers.value;
            || (conn in s.providers && s.providers[conn].offers == Some(chan))
            || (chan == |s.channels| < |s'.channels| && s'.channels[chan].owner == conn)
  {
  }

  /** Only a provider that leaves, or that gets a new channel, closes one: its own. */
  lemma OpenStays(s: State, step: Step, conn: Conn, chan: Chan)
    requires ChannelsOwned(s) && Enabled(s, step) && chan < |s.channels|
    requires s.channels[chan].owner == conn && s.channels[chan].open
    requires !((step.Leave? || step.Offer?) && step.conn == conn)
    ensures chan < |Apply(s, step).channels| && Apply(s, step).channels[chan].open
  {
  }

  lemma SameReceiver(s: State, step: Step, conn: Conn)
    requires Enabled(s, step) && conn in s.providers && !(step.Offer? && step.conn == conn)
    ensures conn in Apply(s, step).providers
    ensures Apply(s, step).providers[conn].id == s.providers[conn].id
    ensures Apply(s, step).providers[conn].offers == s.providers[conn].offers
  {
  }

  /** Nobody comes back to life. */
  lemma LiveOneBefore(s: State, step: Step, conn: Conn)
    requires Enabled(s, step) && conn in s.providers && InPhase(Apply(s, step), conn, Live)
    ensures InPhase(s, conn, Live) && Apply(s, step).providers[conn].id == s.providers[conn].id
  {
  }

  lemma {:induction false} LiveBefore(s: State, steps: seq<Step>, conn: Conn)
    requires Schedule(s, steps) && conn in s.providers && InPhase(Outcome(s, steps), conn, Live)
    ensures InPhase(s, conn, Live) && Outcome(s, steps).providers[conn].id == s.providers[conn].id
    decreases |steps|
  {
    if |steps| > 0 {
      LiveBefore(Apply(s, steps[0]), steps[1..], conn);
      LiveOneBefore(s, steps[0], conn);
    }
  }

  /** As long as its entry is there, a provider that can be reached can be reached after any step. */
  lemma EntryKeepsReach(s: State, step: Step, conn: Conn)
    requires ChannelsOwned(s) && Enabled(s, step) && InPhase(s, conn, Live) && InPhase(Apply(s, step), conn, Live)
    requires ReachableProvider(s, conn) && s.providers[conn].id in Apply(s, step).udp
    ensures ReachableProvider(Apply(s, step), conn)
    ensures Apply(s, step).udp[s.providers[conn].id].toProvider == s.udp[s.providers[conn].id].toProvider
  {
    EntryBefore(s, step, s.providers[conn].id);
    if !(step.Offer? && step.conn == conn) {
      ChannelsKept(s, step);
      OpenStays(s, step, conn, s.udp[s.providers[conn].id].toProvider);
      SameReceiver(s, step, conn);
    }
  }

  /** A new entry is that of the provider that offers. */
  lemma NewEntryReaches(s: State, step: Step, id: Id)
    requires Enabled(s, step) && id in Apply(s, step).udp && id !in s.udp
    ensures step.Offer? && step.conn in Apply(s, step).providers && ReachableProvider(Apply(s, step), step.conn)
    ensures Apply(s, step).udp[id].toProvider < |Apply(s, step).channels|
    ensures Apply(s, step).channels[Apply(s, step).udp[id].toProvider].owner == step.conn
  {
    if !step.Offer? && !step.Lookup? && !step.Forward? {
      EntriesOnlyGo(s, step);
    }
  }

  lemma LiveOwnersStep(s: State, step: Step)
    requires ReachInv(s) && Enabled(s, step) && EntriesOwned(Apply(s, step))
    ensures LiveOwnersReachable(Apply(s, step))
  {
    var s' := Apply(s, step);
    ChannelsKept(s, step);
    forall id | id in s'.udp && InPhase(s', s'.channels[s'.udp[id].toProvider].owner, Live)
      ensures ReachableProvider(s', s'.channels[s'.udp[id].toProvider].owner)
    {
      if id in s.udp {
        EntryBefore(s, step, id);
        var owner := s.channels[s.udp[id].toProvider].owner;
        assert OwnsId(s, owner, id);
        LiveOneBefore(s, step, owner);
        EntryKeepsReach(s, step, owner);
      } else {
        NewEntryReaches(s, step, id);
      }
    }
  }

  /** Every step of every provider keeps this, orderly or not. */
  lemma ReachStep(s: State, step: Step)
    requires ReachInv(s) && Enabled(s, step)
    ensures ReachInv(Apply(s, step))
  {
    RegistryStep(s, step);
    EntriesStep(s, step);
    ChannelsStep(s, step);
    LiveOwnersStep(s, step);
  }

  /** While no other provider of its id is half removed, a live provider owns the entry of its id, if
      there is one. */
  lemma EntryIsItsOwn(s: State, conn: Conn)
    requires ReachInv(s) && InPhase(s, conn, Live) && !HalfRemoved(s, conn)
    ensures s.providers[conn].id in s.udp <==> ReachableProvider(s, conn)
  {
    var id := s.providers[conn].id;
    if id in s.udp {
      var owner := s.channels[s.udp[id].toProvider].owner;
      assert OwnsId(s, owner, id);
      assert owner == conn;
    }
  }

  lemma UnlistedOneBefore(s: State, step: Step, conn: Conn)
    requires Enabled(s, step) && InPhase(Apply(s, step), conn, Unlisted)
    ensures InPhase(s, conn, Unlisted) || InPhase(s, conn, Leaving)
    ensures s.providers[conn].id == Apply(s, step).providers[conn].id
  {
  }

  /** A live provider of whose id nobody else is half removed stays so: the id is its own. */
  lemma StaysWhole(s: State, step: Step, conn: Conn)
    requires RegistryOk(s) && Enabled(s, step) && InPhase(s, conn, Live) && !HalfRemoved(s, conn)
    requires InPhase(Apply(s, step), conn, Live)
    ensures !HalfRemoved(Apply(s, step), conn)
  {
    var s' := Apply(s, step);
    LiveOneBefore(s, step, conn);
    forall other | other != conn && InPhase(s', other, Unlisted)
      ensures s'.providers[other].id != s'.providers[conn].id
    {
      UnlistedOneBefore(s, step, other);
    }
  }

  /** What an orderly offer gives a provider. */
  ghost predicate Established(s: State, conn: Conn) {
    InPhase(s, conn, Live) && ReachableProvider(s, conn) && !HalfRemoved(s, conn)
  }

  /** Whatever the others do, it keeps that until it leaves. */
  lemma EstablishedStep(s: State, step: Step, conn: Conn)
    requires ReachInv(s) && Enabled(s, step) && Established(s, conn) && InPhase(Apply(s, step), conn, Live)
    ensures Established(Apply(s, step), conn)
    ensures Apply(s, step).providers[conn].id == s.providers[conn].id
    ensures Apply(s, step).udp[s.providers[conn].id].toProvider == s.udp[s.providers[conn].id].toProvider
  {
    var id := s.providers[conn].id;
    LiveOneBefore(s, step, conn);
    StaysWhole(s, step, conn);
    assert id in Apply(s, step).udp;
    EntryKeepsReach(s, step, conn);
  }

  /** An offer at a moment when no other provider of the id is half removed. */
  lemma OrderlyOfferEstablishes(s: State, conn: Conn, offer: CandidateOffer, nonce: Nonce)
    requires ReachInv(s) && Enabled(s, Offer(conn, offer, nonce)) && !HalfRemoved(s, conn)
    ensures Established(Apply(s, Offer(conn, offer, nonce)), conn)
  {
    var step := Offer(conn, offer, nonce);
    ReachStep(s, step);
    StaysWhole(s, step, conn);
    EntryIsItsOwn(Apply(s, step), conn);
  }

  lemma {:induction false} EstablishedStays(s: State, steps: seq<Step>, conn: Conn)
    requires ReachInv(s) && Schedule(s, steps) && Established(s, conn) && InPhase(Outcome(s, steps), conn, Live)
    ensures var end := Outcome(s, steps);
            var id := s.providers[conn].id;
            && Established(end, conn) && end.providers[conn].id == id
            && end.udp[id].toProvider == s.udp[id].toProvider
    decreases |steps|
  {
    if |steps| > 0 {
      var s1 := Apply(s, steps[0]);
      SameOrNewProvider(s, steps[0], conn);
      LiveBefore(s1, steps[1..], conn);
      ReachStep(s, steps[0]);
      EstablishedStep(s, steps[0], conn);
      EstablishedStays(s1, steps[1..], conn);
    }
  }

  lemma SameOrNewProvider(s: State, step: Step, conn: Conn)
    requires Enabled(s, step) && conn in s.providers
    ensures conn in Apply(s, step).providers
  {
  }

  /** In these steps the provider makes an offer at a moment when no other provider of its id is half
      removed. Of other providers and other offers nothing is asked. */
  ghost predicate OrderlyOffered(s: State, steps: seq<Step>, conn: Conn)
    requires Schedule(s, steps)
    decreases |steps|
  {
    |steps| > 0 &&
    (|| (steps[0].Offer? && steps[0].conn == conn && !HalfRemoved(s, conn))
     || OrderlyOffered(Apply(s, steps[0]), steps[1..], conn))
  }

  lemma {:induction false} OrderlyOfferReaches(s: State, steps: seq<Step>, conn: Conn)
    requires ReachInv(s) && Schedule(s, steps) && OrderlyOffered(s, steps, conn) && InPhase(Outcome(s, steps), conn, Live)
    ensures Established(Outcome(s, steps), conn)
    decreases |steps|
  {
    var step := steps[0];
    ReachStep(s, step);
    if step.Offer? && step.conn == conn && !HalfRemoved(s, conn) {
      OrderlyOfferEstablishes(s, conn, step.offer, step.freshNonce);
      EstablishedStays(Apply(s, step), steps[1..], conn);
    } else {
      OrderlyOfferReaches(Apply(s, step), steps[1..], conn);
    }
  }

  /** Without an orderly offer, what a provider owns it is going to lose. */
  ghost predicate Unestablished(s: State, conn: Conn) {
    InPhase(s, conn, Live) && ReachableProvider(s, conn) ==> HalfRemoved(s, conn)
  }

  /** A step of others gives a provider nothing. */
  lemma ReachedBefore(s: State, step: Step, conn: Conn)
    requires Enabled(s, step) && InPhase(Apply(s, step), conn, Live) && ReachableProvider(Apply(s, step), conn)
    requires ChannelsOwned(s) && !(step.Offer? && step.conn == conn)
    ensures InPhase(s, conn, Live) && ReachableProvider(s, conn)
  {
  }

  lemma UnestablishedStep(s: State, step: Step, conn: Conn)
    requires ReachInv(s) && Enabled(s, step) && Unestablished(s, conn)
    requires !(step.Offer? && step.conn == conn && !HalfRemoved(s, conn))
    ensures Unestablished(Apply(s, step), conn)
  {
    var s' := Apply(s, step);
    if InPhase(s', conn, Live) && ReachableProvider(s', conn) {
      if !(step.Offer? && step.conn == conn) {
        ReachedBefore(s, step, conn);
      }
      var other :| other != conn && InPhase(s, other, Unlisted) && s.providers[other].id == s.providers[conn].id;
      StaysUnlisted(s, step, other, s.providers[conn].id);
      LiveOneBefore(s, step, conn);
    }
  }

  /** A half removed provider that goes takes the entry along. */
  lemma StaysUnlisted(s: State, step: Step, conn: Conn, id: Id)
    requires Enabled(s, step) && InPhase(s, conn, Unlisted) && s.providers[conn].id == id && id in Apply(s, step).udp
    ensures InPhase(Apply(s, step), conn, Unlisted) && Apply(s, step).providers[conn].id == id
  {
  }

  lemma {:induction false} NeverOrderly(s: State, steps: seq<Step>, conn: Conn)
    requires ReachInv(s) && Schedule(s, steps) && !OrderlyOffered(s, steps, conn) && Unestablished(s, conn)
    ensures Unestablished(Outcome(s, steps), conn)
    decreases |steps|
  {
    if |steps| > 0 {
      ReachStep(s, steps[0]);
      UnestablishedStep(s, steps[0], conn);
      NeverOrderly(Apply(s, steps[0]), steps[1..], conn);
    }
  }

  lemma InitialReach()
    ensures ReachInv(INITIAL)
  {
  }

  lemma ScheduleKeepsReach(steps: seq<Step>)
    requires Schedule(INITIAL, steps)
    ensures ReachInv(Outcome(INITIAL, steps))
  {
    InitialReach();
    forall t, step | ReachInv(t) && Enabled(t, step)
      ensures ReachInv(Apply(t, step))
    {
      ReachStep(t, step);
    }
    ScheduleKeeps(INITIAL, steps, t => ReachInv(t));
  }

  /** Which live providers the broker can reach, in every schedule: a provider can be reached, and no
      predecessor will take that away, exactly when it has itself made an offer at a moment when no
      other provider of its id was half removed. */
  lemma ReachableIffOrderlyOffered(steps: seq<Step>, conn: Conn)
    requires Schedule(INITIAL, steps) && InPhase(Outcome(INITIAL, steps), conn, Live)
    ensures var end := Outcome(INITIAL, steps);
            OrderlyOffered(INITIAL, steps, conn) <==> ReachableProvider(end, conn) && !HalfRemoved(end, conn)
  {
    InitialReach();
    if OrderlyOffered(INITIAL, steps, conn) {
      OrderlyOfferReaches(INITIAL, steps, conn);
    } else {
      NeverOrderly(INITIAL, steps, conn);
    }
  }

  /** So, while nobody else is half removed, a consumer that asks for the id is turned away exactly when
      the provider has made no such offer. */
  lemma TurnedAwayIffNotOrderlyOffered(steps: seq<Step>, conn: Conn, consumer: Conn, wish: CandidateOffer)
    requires Schedule(INITIAL, steps) && InPhase(Outcome(INITIAL, steps), conn, Live)
    requires !HalfRemoved(Outcome(INITIAL, steps), conn) && consumer !in Outcome(INITIAL, steps).brokering
    ensures var end := Outcome(INITIAL, steps);
            var after := Apply(end, Lookup(consumer, end.providers[conn].id, wish));
            !OrderlyOffered(INITIAL, steps, conn) <==> after.answers == end.answers + [UdpUnavailable(consumer)]
  {
    ReachableIffOrderlyOffered(steps, conn);
    ScheduleKeepsReach(steps);
    EntryIsItsOwn(Outcome(INITIAL, steps), conn);
  }

  /** From its first orderly offer until it leaves, the nonce and the channel of a provider stay, across
      all its offers and whatever others do. */
  lemma NonceStays(first: seq<Step>, more: seq<Step>, conn: Conn)
    requires Schedule(INITIAL, first) && OrderlyOffered(INITIAL, first, conn) && conn in Outcome(INITIAL, first).providers
    requires Schedule(Outcome(INITIAL, first), more) && InPhase(Outcome(Outcome(INITIAL, first), more), conn, Live)
    ensures var s, end := Outcome(INITIAL, first), Outcome(Outcome(INITIAL, first), more);
            var id := s.providers[conn].id;
            && id in s.udp && id in end.udp
            && end.udp[id].nonce == s.udp[id].nonce && end.udp[id].toProvider == s.udp[id].toProvider
  {
    var s := Outcome(INITIAL, first);
    LiveBefore(s, more, conn);
    InitialReach();
    ScheduleKeepsReach(first);
    OrderlyOfferReaches(INITIAL, first, conn);
    EstablishedStays(s, more, conn);
    ScheduleKeepsInv(INITIAL, first);
    ScheduleKeepsInv(s, more);
    SameNonces(s, more, s.udp[s.providers[conn].id].toProvider);
  }

  /** A channel keeps its nonce. */
  lemma {:induction false} SameNonces(s: State, steps: seq<Step>, chan: Chan)
    requires Schedule(s, steps) && chan < |s.channels|
    ensures chan < |Outcome(s, steps).channels| && Outcome(s, steps).channels[chan].nonce == s.channels[chan].nonce
    decreases |steps|
  {
    if |steps| > 0 {
      ChannelsKept(s, steps[0]);
      SameNonces(Apply(s, steps[0]), steps[1..], chan);
    }
  }

  /** An offer in the middle of another provider's removal is lost, in any state: once the removal
      is over, the broker cannot reach the provider and answers its consumers `UdpUnavailable`. */
  lemma DisorderlyOfferIsLost(s: State, conn: Conn, other: Conn, offer: CandidateOffer, nonce: Nonce,
                              consumer: Conn, wish: CandidateOffer)
    requires InPhase(s, conn, Live) && InPhase(s, other, Unlisted) && s.providers[other].id == s.providers[conn].id
    requires consumer !in s.brokering
    ensures Schedule(s, [Offer(conn, offer, nonce), Forget(other)])
    ensures var end := Outcome(s, [Offer(conn, offer, nonce), Forget(other)]);
            && InPhase(end, conn, Live) && end.providers[conn].offered && !ReachableProvider(end, conn)
            && Enabled(end, Lookup(consumer, s.providers[conn].id, wish))
            && Apply(end, Lookup(consumer, s.providers[conn].id, wish)).answers == end.answers + [UdpUnavailable(consumer)]
  {
    var s1 := Apply(s, Offer(conn, offer, nonce));
    OneStep(s1, Forget(other), []);
    OneStep(s, Offer(conn, offer, nonce), [Forget(other)]);
  }

  /** Such a moment exists: a provider registers under an id that its predecessor is still leaving. */
  lemma RemovalLeavesAGap(first: Conn, second: Conn, id: Id) returns (steps: seq<Step>)
    requires first != second
    ensures Schedule(INITIAL, steps)
    ensures var s := Outcome(INITIAL, steps);
            && InPhase(s, second, Live) && InPhase(s, first, Unlisted) && s.providers[first].id == s.providers[second].id
  {
    var s1 := Apply(INITIAL, Register(first, id));
    var s2 := Apply(s1, Leave(first));
    var s3 := Apply(s2, Unlist(first));
    steps := [];
    OneStep(s3, Register(second, id), steps);
    steps := [Register(second, id)] + steps;
    OneStep(s2, Unlist(first), steps);
    steps := [Unlist(first)] + steps;
    OneStep(s1, Leave(first), steps);
    steps := [Leave(first)] + steps;
    OneStep(INITIAL, Register(first, id), steps);
    steps := [Register(first, id)] + steps;
  }

  // --------------------------------------------------------------------- the server's own methods

  /** The registries as one provider task or consumer task updates them. */
  class Server {
    var registry: map<Id, Conn>
    var udp: map<Id, UdpReg>
    var channels: seq<Channel>

    ghost predicate Valid()
      reads this
    {
      forall id :: id in udp ==> RegOk(channels, udp[id])
    }

    constructor ()
      ensures Valid() && registry == map[] && udp == map[] && channels == []
    {
      registry, udp, channels := map[], map[], [];
    }

    /** The atomic entry of `serve_provider`. */
    method TryRegister(conn: Conn, id: Id) returns (registered: bool)
      modifies this`registry
      ensures registered <==> id !in old(registry)
      ensures registry == if registered then old(registry)[id := conn] else old(registry)
    {
      if id in registry {
        return false;
      }
      registry := registry[id := conn];
      return true;
    }

    /** Returns the receiving end when it had to make a channel. The nonce of an existing entry
        stays. */
    method RegisterProviderUdpOffer(conn: Conn, id: Id, offer: CandidateOffer, freshNonce: Nonce)
      returns (receiver: Option<Chan>)
      requires Valid()
      modifies this`udp, this`channels
      ensures Valid()
      ensures udp == old(udp)[id := OfferedEntry(old(udp), id, offer, freshNonce, |old(channels)|)]
      ensures receiver == if id in old(udp) then None else Some(|old(channels)|)
      ensures id in old(udp) ==> channels == old(channels)
      ensures id !in old(udp) ==> channels == old(channels) + [Channel(conn, freshNonce, [], true)]
    {
      var chan := |channels|;
      var nonce := freshNonce;
      receiver := None;
      if id in udp {
        chan, nonce := udp[id].toProvider, udp[id].nonce;
      } else {
        channels := channels + [Channel(conn, freshNonce, [], true)];
        receiver := Some(chan);
      }
      udp := udp[id := UdpReg(offer.candidates, offer.stun, nonce, chan)];
    }

    /** `broker_udp`, when nothing comes between lookup and send and the channel has room. The
        provider's queue is extended before the consumer is told to punch. */
    method BrokerUdp(consumer: Conn, id: Id, offer: CandidateOffer) returns (answer: Answer)
      requires Valid()
      modifies this`channels
      ensures Valid() && |channels| == |old(channels)|
      ensures answer.UdpPunch? <==> id in udp && old(channels)[udp[id].toProvider].open
      ensures answer.UdpPunch? ==>
                var chan := udp[id].toProvider;
                && answer == UdpPunch(consumer, id, offer, channels[chan].nonce, udp[id].candidates)
                && channels[chan].queue == old(channels)[chan].queue + [UdpOffer(answer.nonce, offer.candidates, offer.stun)]
                && forall c :: 0 <= c < |channels| && c != chan ==> channels[c] == old(channels)[c]
      ensures answer.UdpUnavailable? ==> answer.consumer == consumer && channels == old(channels)
    {
      if id !in udp {
        return UdpUnavailable(consumer);
      }
      var found := udp[id];
      var channel := channels[found.toProvider];
      if !channel.open {
        return UdpUnavailable(consumer);
      }
      var queue := channel.queue + [UdpOffer(found.nonce, offer.candidates, offer.stun)];
      channels := channels[found.toProvider := channel.(queue := queue)];
      return UdpPunch(consumer, id, offer, found.nonce, found.candidates);
    }

    /** `Deregister::drop`: both entries of the id go, whoever they belong to. */
    method Deregister(id: Id)
      requires Valid()
      modifies this`registry, this`udp
      ensures Valid()
      ensures registry == old(registry) - {id} && udp == old(udp) - {id}
    {
      registry := registry - {id};
      udp := udp - {id};
    }
  }
}
