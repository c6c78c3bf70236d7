/** The routing maps of the primary and of one worker: by provider id for handshakes, by number for the
    hot path. */
module Registries {
  import opened Common
  import opened Handshake

  /** A primary limiter, as far as routing is concerned. */
  datatype Limiter = Limiter(provider: string, number: int, mode: Mode)

  /** A boot configuration on its way to a worker. */
  datatype BootReply = BootReply(worker: int, provider: string, mode: Mode, number: int)

  function Greeting(w: int, l: Limiter): BootReply {
    BootReply(w, l.provider, l.mode, l.number)
  }

  function Greetings(workers: set<int>, l: Limiter): set<BootReply> {
    set w | w in workers :: Greeting(w, l)
  }

  datatype Outcome = Published | DuplicateProvider | DuplicateNumber | HandshakeThrew

  datatype Registry = Registry(counter: nat, byProvider: map<string, Limiter>, byNumber: map<int, Limiter>)

  /** String routing and integer routing name the same limiters, all with numbers handed out before. */
  ghost predicate Agree(r: Registry) {
    && (forall p :: p in r.byProvider ==>
          var l := r.byProvider[p]; l.provider == p && l.number in r.byNumber && r.byNumber[l.number] == l)
    && (forall n :: n in r.byNumber ==>
          var l := r.byNumber[n]; l.number == n && l.provider in r.byProvider && r.byProvider[l.provider] == l)
    && (forall n :: n in r.byNumber ==> 1 <= n <= r.counter)
  }

  /** `_kPublish`: register under the provider id, then under the number, then greet the workers; a
      failure after the first step takes both registrations back. */
  function Publish(r: Registry, l: Limiter, greetingThrows: bool): (Registry, Outcome) {
    if l.provider in r.byProvider then (r, DuplicateProvider)
    else if l.number in r.byNumber then (r.(byNumber := r.byNumber - {l.number}), DuplicateNumber)
    else if greetingThrows then (r, HandshakeThrew)
    else (r.(byProvider := r.byProvider[l.provider := l], byNumber := r.byNumber[l.number := l]), Published)
  }

  class PrimaryRegistry {
    var counter: nat
    var byProvider: map<string, Limiter>
    var byNumber: map<int, Limiter>
    ghost var handedOut: seq<int>   // every number generated so far, in order

    /** The numbers handed out are exactly 1 to the counter, each once and in order. */
    ghost predicate Numbering()
      reads this
    {
      |handedOut| == counter && forall i :: 0 <= i < counter ==> handedOut[i] == i + 1
    }

    ghost function Abs(): Registry
      reads this
    {
      Registry(counter, byProvider, byNumber)
    }

    constructor ()
      ensures Abs() == Registry(0, map[], map[]) && Agree(Abs()) && Numbering() && handedOut == []
    {
      counter, byProvider, byNumber, handedOut := 0, map[], map[], [];
    }

    /** Counts from 1; a number is never handed out twice. */
    method GenerateApiUniqueNumber() returns (n: int)
      requires Numbering()
      modifies this`counter, this`handedOut
      ensures Numbering() && handedOut == old(handedOut) + [n]
      ensures n == counter == old(counter) + 1 && n !in old(handedOut)
    {
      if counter == 0 {
        counter := 1;
      } else {
        counter := counter + 1;
      }
      n := counter;
      handedOut := handedOut + [n];
    }

    method RegisterLimiterByProviderId(l: Limiter) returns (ok: bool)
      modifies this`byProvider
      ensures ok <==> l.provider !in old(byProvider)
      ensures byProvider == if ok then old(byProvider)[l.provider := l] else old(byProvider)
    {
      ok := l.provider !in byProvider;
      if ok {
        byProvider := byProvider[l.provider := l];
      }
    }

    method RegisterLimiterByUniqueNumber(l: Limiter) returns (ok: bool)
      modifies this`byNumber
      ensures ok <==> l.number !in old(byNumber)
      ensures byNumber == if ok then old(byNumber)[l.number := l] else old(byNumber)
    {
      ok := l.number !in byNumber;
      if ok {
        byNumber := byNumber[l.number := l];
      }
    }

    method UnregisterLimiter(provider: string, number: int)
      modifies this`byProvider, this`byNumber
      ensures byProvider == old(byProvider) - {provider} && byNumber == old(byNumber) - {number}
    {
      byProvider := byProvider - {provider};
      byNumber := byNumber - {number};
    }

    /** Publishes a limiter, all or nothing for a number of its own. */
    method PublishLimiter(l: Limiter, greetingThrows: bool) returns (outcome: Outcome)
      modifies this`byProvider, this`byNumber
      ensures (Abs(), outcome) == Publish(old(Abs()), l, greetingThrows)
    {
      var registered := RegisterLimiterByProviderId(l);
      if !registered {
        return DuplicateProvider;
      }
      registered := RegisterLimiterByUniqueNumber(l);
      if !registered || greetingThrows {
        UnregisterLimiter(l.provider, l.number);
        assert byProvider == old(byProvider);
        if registered {
          assert byNumber == old(byNumber);
        }
        return if registered then HandshakeThrew else DuplicateNumber;
      }
      return Published;
    }
  }

  /** Sends the boot configuration to every worker in turn; a send that fails is swallowed and the loop
      goes on. */
  method ExecuteProactiveHandshake(workers: seq<int>, failing: set<int>, l: Limiter) returns (replies: set<BootReply>)
    ensures replies == Greetings((set w | w in workers) - failing, l)
  {
    replies := {};
    var i := 0;
    while i < |workers|
      invariant 0 <= i <= |workers|
      invariant replies == Greetings((set w | w in workers[..i]) - failing, l)
    {
      if workers[i] !in failing {
        replies := replies + {Greeting(workers[i], l)};
      }
      i := i + 1;
      assert workers[..i] == workers[..i - 1] + [workers[i - 1]];
    }
    assert workers[..i] == workers;
  }

  /** One worker's routing maps; limiters are named by their provider. */
  class WorkerRegistry {
    var byProvider: set<string>
    var byNumber: map<int, string>

    constructor ()
      ensures byProvider == {} && byNumber == map[]
    {
      byProvider, byNumber := {}, map[];
    }

    /** A second limiter for the same provider is refused. */
    method RegisterLimiterByProviderId(provider: string) returns (ok: bool)
      modifies this`byProvider
      ensures ok <==> provider !in old(byProvider)
      ensures byProvider == old(byProvider) + {provider}
    {
      ok := provider !in byProvider;
      if ok {
        byProvider := byProvider + {provider};
      }
    }

    /** Adds or overwrites the route of a number. */
    method RegisterLimiterByUniqueNumber(number: int, provider: string)
      modifies this`byNumber
      ensures byNumber == old(byNumber)[number := provider]
    {
      byNumber := byNumber[number := provider];
    }
  }

  /** With a number generated for it, a limiter can only be refused for its provider id or by a failed
      greeting; then nothing has changed, and otherwise both routes lead to it. */
  lemma PublishIsAllOrNothing(r: Registry, provider: string, mode: Mode, greetingThrows: bool)
    requires Agree(r)
    ensures var l := Limiter(provider, r.counter + 1, mode);
      var numbered := r.(counter := r.counter + 1);
      var (t, outcome) := Publish(numbered, l, greetingThrows);
      && Agree(t)
      && outcome != DuplicateNumber
      && (outcome == Published <==> provider !in r.byProvider && !greetingThrows)
      && (outcome != Published ==> t == numbered)
      && (outcome == Published ==> t.byProvider[provider] == l && t.byNumber[l.number] == l)
  {
  }
}
