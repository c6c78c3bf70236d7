/** The whole process tree as routing sees it: primary limiters come and go, workers learn numbers from
    handshakes, and hot messages travel under numbers only. */
module Routing {
  import opened Common
  import opened Handshake
  import opened Registries

  /** A hot message between a worker and the primary; `provider` is the limiter that sent it, which the
      message itself does not say. */
  datatype Hot = Hot(worker: int, provider: string, number: int)

  /** What a worker-side limiter knows: its mode, and the number it was given once it was. */
  datatype Client = Client(mode: Mode, completed: bool, number: Option<int>)

  datatype System = System(
    registry: Registry,
    made: map<int, Limiter>,                 // history: the limiter each number was generated for
    replies: set<BootReply>,
    clients: map<(int, string), Client>,     // worker-side provider registries
    routes: map<(int, int), string>,         // worker-side number registries
    up: set<Hot>,
    down: set<Hot>
  )

  datatype Event =
    | Construct(provider: string, mode: Mode, greeted: set<int>, greetingThrows: bool)
    | BootRequest(worker: int, provider: string)
    | CreateClient(worker: int, provider: string, mode: Mode)
    | ReplyArrives(reply: BootReply)
    | ClientSends(worker: int, provider: string)
    | LimiterSends(worker: int, limiter: Limiter)

  function Init(): System {
    System(Registry(0, map[], map[]), map[], {}, map[], map[], {}, {})
  }

  predicate Enabled(s: System, e: Event) {
    match e
    case Construct(_, _, _, _) => true
    case BootRequest(_, _) => true
    case CreateClient(w, p, _) => (w, p) !in s.clients
    case ReplyArrives(r) => r in s.replies
    case ClientSends(w, p) => (w, p) in s.clients && s.clients[(w, p)].number.Some?
    case LimiterSends(_, l) => l.number in s.registry.byNumber && s.registry.byNumber[l.number] == l
  }

  /** The worker's end of the handshake: only the first reply counts, and only a matching one is routed. */
  function Learn(s: System, r: BootReply): System {
    var key := (r.worker, r.provider);
    if key !in s.clients || s.clients[key].completed then s
    else if s.clients[key].mode != r.mode then s.(clients := s.clients[key := s.clients[key].(completed := true)])
    else s.(clients := s.clients[key := Client(r.mode, true, Some(r.number))],
            routes := s.routes[(r.worker, r.number) := r.provider])
  }

  function Step(s: System, e: Event): System
    requires Enabled(s, e)
  {
    match e
    case Construct(p, mode, greeted, throws) =>
      var n := s.registry.counter + 1;
      var (registry, outcome) := Publish(s.registry.(counter := n), Limiter(p, n, mode), throws);
      var sent := if outcome == DuplicateProvider then {} else Greetings(greeted, Limiter(p, n, mode));
      s.(registry := registry, made := s.made[n := Limiter(p, n, mode)], replies := s.replies + sent)
    case BootRequest(w, p) =>
      if p in s.registry.byProvider then
        var l := s.registry.byProvider[p];
        s.(replies := s.replies + {Greeting(w, l)})
      else s
    case CreateClient(w, p, mode) => s.(clients := s.clients[(w, p) := Client(mode, false, None)])
    case ReplyArrives(r) => Learn(s, r)
    case ClientSends(w, p) => s.(up := s.up + {Hot(w, p, s.clients[(w, p)].number.value)})
    case LimiterSends(w, l) => s.(down := s.down + {Hot(w, l.provider, l.number)})
  }

  ghost predicate Reaches(s: System, events: seq<Event>, t: System)
    decreases |events|
  {
    if events == [] then s == t
    else Enabled(s, events[0]) && Reaches(Step(s, events[0]), events[1..], t)
  }

  /** The provider whose primary limiter gets a hot message, if any does. */
  function PrimaryRoute(s: System, number: int): Option<string> {
    if number in s.registry.byNumber then Some(s.registry.byNumber[number].provider) else None
  }

  /** The provider whose limiter in worker `w` gets a hot message, if any does. */
  function WorkerRoute(s: System, w: int, number: int): Option<string> {
    if (w, number) in s.routes then Some(s.routes[(w, number)]) else None
  }

  ghost predicate Owned(made: map<int, Limiter>, number: int, provider: string) {
    number in made && made[number].provider == provider
  }

  ghost predicate RegistryOwned(made: map<int, Limiter>, r: Registry) {
    && (forall n :: n in made ==> 1 <= n <= r.counter)
    && (forall n :: n in r.byNumber ==> n in made && made[n] == r.byNumber[n])
  }

  /** A boot configuration names exactly the limiter its number was generated for. */
  ghost predicate Truthful(made: map<int, Limiter>, r: BootReply) {
    r.number in made && made[r.number] == Limiter(r.provider, r.number, r.mode)
  }

  ghost predicate RepliesOwned(made: map<int, Limiter>, replies: set<BootReply>) {
    forall r :: r in replies ==> Truthful(made, r)
  }

  ghost predicate ClientsOwned(made: map<int, Limiter>, clients: map<(int, string), Client>,
                               routes: map<(int, int), string>) {
    && (forall k :: k in clients && clients[k].number.Some? ==>
          && Owned(made, clients[k].number.value, k.1) && made[clients[k].number.value].mode == clients[k].mode
          && (k.0, clients[k].number.value) in routes)
    && (forall k :: k in routes ==> Owned(made, k.1, routes[k]))
  }

  ghost predicate HotOwned(made: map<int, Limiter>, messages: set<Hot>) {
    forall h :: h in messages ==> Owned(made, h.number, h.provider)
  }

  /** Whatever names a number, anywhere, names the limiter the number was generated for; and a client that
      has not completed its handshake knows no number. */
  ghost predicate Inv(s: System) {
    && Agree(s.registry)
    && RegistryOwned(s.made, s.registry)
    && RepliesOwned(s.made, s.replies)
    && ClientsOwned(s.made, s.clients, s.routes)
    && HotOwned(s.made, s.up) && HotOwned(s.made, s.down)
    && (forall k :: k in s.clients && !s.clients[k].completed ==> s.clients[k].number == None)
  }

  /** A new number takes nothing away from what was owned. */
  lemma MadeGrows(s: System, n: int, l: Limiter)
    requires Inv(s) && n !in s.made
    ensures var made := s.made[n := l];
      && RepliesOwned(made, s.replies) && ClientsOwned(made, s.clients, s.routes)
      && HotOwned(made, s.up) && HotOwned(made, s.down)
  {
    hide Agree;
    assert forall m, q :: Owned(s.made, m, q) ==> Owned(s.made[n := l], m, q);
  }

  lemma GreetingsAreTruthful(made: map<int, Limiter>, workers: set<int>, l: Limiter)
    requires l.number in made && made[l.number] == l
    ensures RepliesOwned(made, Greetings(workers, l))
  {
  }

  lemma ConstructKeeps(s: System, e: Event)
    requires Inv(s) && e.Construct?
    ensures Inv(Step(s, e))
  {
    hide Agree, ClientsOwned, HotOwned, Truthful, Greetings;
    var n := s.registry.counter + 1;
    var l := Limiter(e.provider, n, e.mode);
    MadeGrows(s, n, l);
    GreetingsAreTruthful(s.made[n := l], e.greeted, l);
    PublishIsAllOrNothing(s.registry, e.provider, e.mode, e.greetingThrows);
  }

  lemma LearnKeeps(s: System, r: BootReply)
    requires Inv(s) && r in s.replies
    ensures Inv(Learn(s, r))
  {
    hide Agree, RegistryOwned, HotOwned;
    assert Truthful(s.made, r);
  }

  lemma MessageKeeps(s: System, e: Event)
    requires Inv(s) && Enabled(s, e) && !e.Construct? && !e.ReplyArrives?
    ensures Inv(Step(s, e))
  {
    hide Publish;
    match e
    case BootRequest(_, _) =>
    case CreateClient(_, _, _) =>
    case ClientSends(_, _) =>
    case LimiterSends(_, _) =>
  }

  lemma StepKeeps(s: System, e: Event)
    requires Inv(s) && Enabled(s, e)
    ensures Inv(Step(s, e))
  {
    hide Inv;
    match e
    case Construct(_, _, _, _) => ConstructKeeps(s, e);
    case ReplyArrives(r) => LearnKeeps(s, r);
    case _ => MessageKeeps(s, e);
  }

  lemma {:induction false} RunKeeps(s: System, events: seq<Event>, t: System)
    requires Inv(s) && Reaches(s, events, t)
    ensures Inv(t)
    decreases |events|
  {
    if events != [] {
      StepKeeps(s, events[0]);
      RunKeeps(Step(s, events[0]), events[1..], t);
    }
  }

  ghost predicate Reachable(t: System) {
    exists events :: Reaches(Init(), events, t)
  }

  lemma ReachableInv(t: System)
    requires Reachable(t)
    ensures Inv(t)
  {
    var events :| Reaches(Init(), events, t);
    RunKeeps(Init(), events, t);
  }

  /** Integer routing agrees with string routing: a hot message sent by a worker's limiter for one
      provider reaches the primary limiter of that provider or nobody, and a message sent by a primary
      limiter reaches, in its worker, the limiter of the same provider or nobody. */
  lemma HotMessagesStayWithTheirProvider(t: System, h: Hot)
    requires Reachable(t)
    ensures h in t.up ==> h.number >= 1 && PrimaryRoute(t, h.number) in {None, Some(h.provider)}
    ensures h in t.down ==> WorkerRoute(t, h.worker, h.number) in {None, Some(h.provider)}
  {
    ReachableInv(t);
  }

  /** A grant for a number the worker's limiter learned does arrive at that limiter. */
  lemma GrantsArrive(t: System, h: Hot)
    requires Reachable(t) && h in t.down && (h.worker, h.provider) in t.clients
    requires t.clients[(h.worker, h.provider)].number == Some(h.number)
    ensures WorkerRoute(t, h.worker, h.number) == Some(h.provider)
  {
    ReachableInv(t);
  }

  /** At the primary, the two maps route to the same limiters in every reachable state. */
  lemma MapsAgree(t: System, p: string)
    requires Reachable(t) && p in t.registry.byProvider
    ensures PrimaryRoute(t, t.registry.byProvider[p].number) == Some(p)
  {
    ReachableInv(t);
  }

  /** Every boot configuration under way names the provider and the mode its number was constructed with. */
  lemma RepliesAreTruthful(t: System, r: BootReply)
    requires Reachable(t) && r in t.replies
    ensures r.number in t.made && t.made[r.number] == Limiter(r.provider, r.number, r.mode)
  {
    ReachableInv(t);
    assert Truthful(t.made, r);
  }

  /** A new limiter is announced to every worker its greeting reaches, under its own number and mode. */
  lemma ConstructionIsAnnounced(t: System, p: string, mode: Mode, greeted: set<int>, w: int)
    requires Reachable(t) && p !in t.registry.byProvider && w in greeted
    ensures var u, n := Step(t, Construct(p, mode, greeted, false)), t.registry.counter + 1;
      && BootReply(w, p, mode, n) in u.replies
      && PrimaryRoute(u, n) == Some(p) && u.made == t.made[n := Limiter(p, n, mode)]
  {
    ReachableInv(t);
    assert Greeting(w, Limiter(p, t.registry.counter + 1, mode)) == BootReply(w, p, mode, t.registry.counter + 1);
  }

  /** The handshake installs the integer route: a worker's limiter that asks the published limiter of its
      provider is answered with that limiter's number; if the modes match, it learns the number, and the
      number then leads to it in its worker and to its provider's limiter at the primary. A limiter in the
      other mode learns nothing. */
  lemma HandshakeInstallsRoute(t: System, w: int, p: string) returns (r: BootReply, u: System)
    requires Reachable(t) && p in t.registry.byProvider
    requires (w, p) in t.clients && !t.clients[(w, p)].completed
    ensures r == BootReply(w, p, t.registry.byProvider[p].mode, t.registry.byProvider[p].number)
    ensures Enabled(Step(t, BootRequest(w, p)), ReplyArrives(r))
    ensures u == Step(Step(t, BootRequest(w, p)), ReplyArrives(r))
    ensures (w, p) in u.clients && u.clients[(w, p)].completed
    ensures u.clients[(w, p)].number == if t.clients[(w, p)].mode == r.mode then Some(r.number) else None
    ensures t.clients[(w, p)].mode == r.mode ==> WorkerRoute(u, w, r.number) == Some(p)
    ensures PrimaryRoute(u, r.number) == Some(p)
  {
    ReachableInv(t);
    r := BootReply(w, p, t.registry.byProvider[p].mode, t.registry.byProvider[p].number);
    u := Step(Step(t, BootRequest(w, p)), ReplyArrives(r));
  }

  /** Worker and primary hear each other: what a client sends under the number it knows reaches its provider's
      limiter while that is published, and what that limiter sends to the worker reaches the client; both are
      in the same mode. */
  lemma MatchedSidesHearEachOther(t: System, w: int, p: string)
    requires Reachable(t) && (w, p) in t.clients && t.clients[(w, p)].number.Some?
    requires p in t.registry.byProvider && t.registry.byProvider[p].number == t.clients[(w, p)].number.value
    ensures var n, l := t.clients[(w, p)].number.value, t.registry.byProvider[p];
      && l.mode == t.clients[(w, p)].mode
      && Enabled(t, ClientSends(w, p)) && Hot(w, p, n) in Step(t, ClientSends(w, p)).up
      && PrimaryRoute(t, n) == Some(p)
      && Enabled(t, LimiterSends(w, l)) && Hot(w, p, n) in Step(t, LimiterSends(w, l)).down
      && WorkerRoute(t, w, n) == Some(p)
  {
    ReachableInv(t);
  }
}
