/**
 Queue names, the declaration loops and AMQP routing: names never collide, the loops declare exactly the queues
 the workers publish to, and every expiry returns a message to its own channel's main queue.
 */
module Topology {
  import opened Domain
  import opened Protocol
  import opened Convergence

  // ---------------------------------------------------------------- names

  const EXCHANGE := "notifications.exchange"

  function Slug(c: Channel): string {
    match c
    case Email => "email"
    case Sms => "sms"
    case Push => "push"
  }

  function RoutingKey(c: Channel): string {
    match c
    case Email => "notification.email"
    case Sms => "notification.sms"
    case Push => "notification.push"
  }

  /** std::to_string of a non-negative int. */
  function Decimal(n: nat): string {
    if n < 10 then [Digit(n)] else Decimal(n / 10) + [Digit(n % 10)]
  }

  function Digit(d: nat): char
    requires d < 10
  {
    '0' + d as char
  }

  function MainQueue(c: Channel): string { "q." + Slug(c) }

  function RetryQueue(c: Channel, attempt: nat): string { "q." + Slug(c) + ".retry." + Decimal(attempt) }

  function Dlq(c: Channel): string { "q." + Slug(c) + ".dlq" }

  datatype Queue = MainOf(channel: Channel) | RetryOf(channel: Channel, rung: nat) | DlqOf(channel: Channel)

  function Name(q: Queue): string {
    match q
    case MainOf(c) => MainQueue(c)
    case RetryOf(c, k) => RetryQueue(c, k)
    case DlqOf(c) => Dlq(c)
  }

  function Value(digits: string): int {
    if digits == "" then 0
    else Value(digits[..|digits| - 1]) * 10 + (digits[|digits| - 1] as int - '0' as int)
  }

  lemma {:induction false} DecimalRoundTrip(n: nat)
    ensures Value(Decimal(n)) == n
  {
    if n < 10 {
      assert Decimal(n)[..0] == "";
    } else {
      DecimalRoundTrip(n / 10);
      assert Decimal(n)[..|Decimal(n)| - 1] == Decimal(n / 10);
    }
  }

  /** What follows the channel's slug in a queue name. */
  function Suffix(q: Queue): string {
    match q
    case MainOf(_) => ""
    case RetryOf(_, k) => ".retry." + Decimal(k)
    case DlqOf(_) => ".dlq"
  }

  lemma NameSplits(q: Queue)
    ensures Name(q) == MainQueue(q.channel) + Suffix(q)
  {
    assert Name(q) == "q." + Slug(q.channel) + Suffix(q);
  }

  lemma SuffixStart(q: Queue)
    ensures q.MainOf? <==> Suffix(q) == ""
    ensures q.RetryOf? ==> |Suffix(q)| > 1 && Suffix(q)[1] == 'r'
    ensures q.DlqOf? ==> |Suffix(q)| > 1 && Suffix(q)[1] == 'd'
  {
  }

  lemma SuffixInjective(a: Queue, b: Queue)
    requires a.channel == b.channel && Suffix(a) == Suffix(b)
    ensures a == b
  {
    SuffixStart(a);
    SuffixStart(b);
    if a.RetryOf? && b.RetryOf? {
      assert Suffix(a)[|".retry."|..] == Decimal(a.rung);
      assert Suffix(b)[|".retry."|..] == Decimal(b.rung);
      DecimalRoundTrip(a.rung);
      DecimalRoundTrip(b.rung);
    }
  }

  /** No two queues of the topology share a name, whatever the rung's decimal rendering. */
  lemma NamesInjective(a: Queue, b: Queue)
    requires Name(a) == Name(b)
    ensures a == b
  {
    NameSplits(a);
    NameSplits(b);
    assert Name(a)[2] == Slug(a.channel)[0] && Name(b)[2] == Slug(b.channel)[0];
    assert a.channel == b.channel;
    var n := |MainQueue(a.channel)|;
    assert Name(a)[n..] == Suffix(a) && Name(b)[n..] == Suffix(b);
    SuffixInjective(a, b);
  }

  /** The names as operators see them. */
  lemma NamesSpelled()
    ensures EXCHANGE == "notifications.exchange"
    ensures MainQueue(Email) == "q.email" && MainQueue(Sms) == "q.sms" && MainQueue(Push) == "q.push"
    ensures RetryQueue(Email, 1) == "q.email.retry.1" && RetryQueue(Sms, 12) == "q.sms.retry.12"
    ensures Dlq(Push) == "q.push.dlq"
    ensures RoutingKey(Email) == "notification.email" && RoutingKey(Sms) == "notification.sms"
    ensures RoutingKey(Push) == "notification.push"
  {
    assert Decimal(12) == Decimal(1) + "2" && Decimal(1) == "1";
    assert "q.sms" + ".retry." + "12" == "q.sms.retry.12";
    assert "q.email" + ".retry." + "1" == "q.email.retry.1";
  }

  // ---------------------------------------------------------------- declarations

  datatype DeadLetterTo = DeadLetterTo(exchange: string, routingKey: string)

  datatype QueueArgs = QueueArgs(maxPriority: Option<nat>, ttl: Option<nat>, deadLetter: Option<DeadLetterTo>)

  datatype Binding = Binding(exchange: string, queue: string, pattern: string)

  const MAIN_ARGS := QueueArgs(Some(5), None, None)
  const DLQ_ARGS := QueueArgs(None, None, None)

  function RetryArgs(c: Channel, delay: nat): QueueArgs {
    QueueArgs(None, Some(delay), Some(DeadLetterTo(EXCHANGE, RoutingKey(c))))
  }

  function MainBinding(c: Channel): Binding { Binding(EXCHANGE, MainQueue(c), RoutingKey(c)) }

  /** Queue `q` belongs to the topology of `delays`. */
  predicate Declares(delays: seq<nat>, q: Queue) {
    q.RetryOf? ==> 1 <= q.rung <= |delays|
  }

  function ArgsOf(delays: seq<nat>, q: Queue): QueueArgs
    requires Declares(delays, q)
  {
    match q
    case MainOf(_) => MAIN_ARGS
    case RetryOf(c, k) => RetryArgs(c, delays[k - 1])
    case DlqOf(_) => DLQ_ARGS
  }

  /** After declareAll on a fresh broker: these queues with these arguments, these bindings, and nothing else. */
  ghost predicate IsTopology(delays: seq<nat>, queues: map<string, QueueArgs>, bindings: set<Binding>) {
    && HasTopology(delays, queues)
    && (forall name :: name in queues ==> TopologyName(delays, name))
    && bindings == BINDINGS
  }

  const CHANNELS: seq<Channel> := [Email, Sms, Push]

  /**
   The queues declared once the loops have finished the first `done` channels and, in the next one, the main queue
   and `rungs` rungs; -1 when that channel is not begun.
   */
  ghost predicate Made(delays: seq<nat>, done: nat, rungs: int, q: Queue)
    requires done <= 3
  {
    || (q.channel in CHANNELS[..done] && Declares(delays, q))
    || (done < 3 && q.channel == CHANNELS[done] && rungs >= 0 && !q.DlqOf? && (q.RetryOf? ==> 1 <= q.rung <= rungs))
  }

  ghost predicate TopologyName(delays: seq<nat>, name: string) {
    exists q: Queue :: Declares(delays, q) && Name(q) == name
  }

  /** No queue of the topology's names has other arguments: RabbitMQ would refuse to declare it again. */
  ghost predicate Compatible(delays: seq<nat>, queues: map<string, QueueArgs>) {
    forall q: Queue :: Declares(delays, q) && Name(q) in queues ==> queues[Name(q)] == ArgsOf(delays, q)
  }

  /** The queues found are as before, and all others belong to the topology. */
  ghost predicate OnlyAdds(delays: seq<nat>, before: map<string, QueueArgs>, queues: map<string, QueueArgs>) {
    && (forall name :: name in before ==> name in queues && queues[name] == before[name])
    && (forall name :: name in queues ==> name in before || TopologyName(delays, name))
  }

  /** All of the topology's queues are there. */
  ghost predicate HasTopology(delays: seq<nat>, queues: map<string, QueueArgs>) {
    forall q: Queue :: Declares(delays, q) ==> Name(q) in queues && queues[Name(q)] == ArgsOf(delays, q)
  }

  ghost predicate Progress(delays: seq<nat>, before: map<string, QueueArgs>, queues: map<string, QueueArgs>, done: nat,
                           rungs: int)
    requires done <= 3 && rungs <= |delays|
  {
    && OnlyAdds(delays, before, queues) && Compatible(delays, queues)
    && (forall q: Queue :: Made(delays, done, rungs, q) ==> Name(q) in queues)
  }

  /** Unique names: one more declaration changes no other queue of the topology. */
  lemma StaysCompatible(delays: seq<nat>, queues: map<string, QueueArgs>, q: Queue)
    requires Compatible(delays, queues) && Declares(delays, q)
    ensures Compatible(delays, queues[Name(q) := ArgsOf(delays, q)])
  {
    var queues' := queues[Name(q) := ArgsOf(delays, q)];
    forall p: Queue | Declares(delays, p) && Name(p) in queues' ensures queues'[Name(p)] == ArgsOf(delays, p) {
      if Name(p) == Name(q) {
        NamesInjective(p, q);
      }
    }
  }

  /** One more declaration. */
  lemma DeclareOne(delays: seq<nat>, before: map<string, QueueArgs>, queues: map<string, QueueArgs>, done: nat,
                   rungs: int, done': nat, rungs': int, q: Queue)
    requires done <= 3 && rungs <= |delays| && done' <= 3 && rungs' <= |delays|
    requires Progress(delays, before, queues, done, rungs) && Declares(delays, q)
    requires forall p: Queue :: Made(delays, done', rungs', p) <==> Made(delays, done, rungs, p) || p == q
    ensures Progress(delays, before, queues[Name(q) := ArgsOf(delays, q)], done', rungs')
  {
    StaysCompatible(delays, queues, q);
    assert TopologyName(delays, Name(q));
  }

  lemma AllDeclared(delays: seq<nat>, before: map<string, QueueArgs>, queues: map<string, QueueArgs>)
    requires Progress(delays, before, queues, 3, -1)
    ensures HasTopology(delays, queues)
  {
    assert CHANNELS[..3] == CHANNELS;
    forall q: Queue | Declares(delays, q) ensures Name(q) in queues && queues[Name(q)] == ArgsOf(delays, q) {
      assert q.channel in CHANNELS by {
        assert q.channel == CHANNELS[0] || q.channel == CHANNELS[1] || q.channel == CHANNELS[2];
      }
      assert Made(delays, 3, -1, q);
    }
  }

  lemma DeclareMain(delays: seq<nat>, before: map<string, QueueArgs>, queues: map<string, QueueArgs>, done: nat)
    requires done < 3 && Progress(delays, before, queues, done, -1)
    ensures Progress(delays, before, queues[MainQueue(CHANNELS[done]) := MAIN_ARGS], done, 0)
  {
    DeclareOne(delays, before, queues, done, -1, done, 0, MainOf(CHANNELS[done]));
  }

  lemma DeclareRung(delays: seq<nat>, before: map<string, QueueArgs>, queues: map<string, QueueArgs>, done: nat, i: nat)
    requires done < 3 && i < |delays| && Progress(delays, before, queues, done, i)
    ensures Progress(delays, before, queues[RetryQueue(CHANNELS[done], i + 1) := RetryArgs(CHANNELS[done], delays[i])],
                     done, i + 1)
  {
    DeclareOne(delays, before, queues, done, i, done, i + 1, RetryOf(CHANNELS[done], i + 1));
  }

  lemma DeclareDlq(delays: seq<nat>, before: map<string, QueueArgs>, queues: map<string, QueueArgs>, done: nat)
    requires done < 3 && Progress(delays, before, queues, done, |delays|)
    ensures Progress(delays, before, queues[Dlq(CHANNELS[done]) := DLQ_ARGS], done + 1, -1)
  {
    assert CHANNELS[..done + 1] == CHANNELS[..done] + [CHANNELS[done]];
    DeclareOne(delays, before, queues, done, |delays|, done + 1, -1, DlqOf(CHANNELS[done]));
  }

  /** The broker as the declaring connection sees it. */
  class Broker {
    var exchanges: set<string>
    var queues: map<string, QueueArgs>
    var bindings: set<Binding>

    constructor ()
      ensures exchanges == {} && queues == map[] && bindings == {}
    {
      exchanges, queues, bindings := {}, map[], {};
    }

    method DeclareExchange(name: string)
      modifies this`exchanges
      ensures exchanges == old(exchanges) + {name}
    {
      exchanges := exchanges + {name};
    }

    method DeclareQueue(name: string, args: QueueArgs)
      modifies this`queues
      ensures queues == old(queues)[name := args]
    {
      queues := queues[name := args];
    }

    method BindQueue(exchange: string, queue: string, pattern: string)
      modifies this`bindings
      ensures bindings == old(bindings) + {Binding(exchange, queue, pattern)}
    {
      bindings := bindings + {Binding(exchange, queue, pattern)};
    }
  }

  const BINDINGS := {MainBinding(Email), MainBinding(Sms), MainBinding(Push)}

  /** The bindings of the first `done` channels. */
  function Bound(done: nat): set<Binding>
    requires done <= 3
  {
    if done == 0 then {} else Bound(done - 1) + {MainBinding(CHANNELS[done - 1])}
  }

  lemma AllBound()
    ensures Bound(3) == BINDINGS
  {
    assert Bound(1) == {MainBinding(Email)};
    assert Bound(2) == Bound(1) + {MainBinding(Sms)};
  }

  /** On a broker with nothing of its own, fresh or declared on before, the result is the topology alone. */
  lemma AloneIsTopology(delays: seq<nat>, before: map<string, QueueArgs>, after: map<string, QueueArgs>,
                        bindings: set<Binding>)
    requires HasTopology(delays, after) && OnlyAdds(delays, before, after) && bindings <= BINDINGS
    requires forall name :: name in before ==> TopologyName(delays, name)
    ensures IsTopology(delays, after, bindings + BINDINGS)
  {
    assert bindings + BINDINGS == BINDINGS;
  }

  /** The topology's exchange, queues and bindings are there afterwards, and whatever the broker had is untouched. */
  method DeclareAll(broker: Broker, delays: seq<nat>)
    requires Compatible(delays, broker.queues)
    modifies broker
    ensures broker.exchanges == old(broker.exchanges) + {EXCHANGE}
    ensures HasTopology(delays, broker.queues) && OnlyAdds(delays, old(broker.queues), broker.queues)
    ensures broker.bindings == old(broker.bindings) + BINDINGS
  {
    broker.DeclareExchange(EXCHANGE);
    ghost var before, earlier := broker.queues, broker.bindings;
    for ch := 0 to 3
      invariant broker.exchanges == old(broker.exchanges) + {EXCHANGE}
      invariant Progress(delays, before, broker.queues, ch, -1)
      invariant broker.bindings == earlier + Bound(ch)
    {
      var c := CHANNELS[ch];
      DeclareMain(delays, before, broker.queues, ch);
      broker.DeclareQueue(MainQueue(c), MAIN_ARGS);
      broker.BindQueue(EXCHANGE, MainQueue(c), RoutingKey(c));
      for i := 0 to |delays|
        invariant broker.exchanges == old(broker.exchanges) + {EXCHANGE}
        invariant Progress(delays, before, broker.queues, ch, i)
        invariant broker.bindings == earlier + Bound(ch + 1)
      {
        DeclareRung(delays, before, broker.queues, ch, i);
        broker.DeclareQueue(RetryQueue(c, i + 1), RetryArgs(c, delays[i]));
      }
      DeclareDlq(delays, before, broker.queues, ch);
      broker.DeclareQueue(Dlq(c), DLQ_ARGS);
    }
    AllBound();
    AllDeclared(delays, before, broker.queues);
  }

  // ---------------------------------------------------------------- routing

  /** The default exchange delivers to the queue whose name is the routing key. */
  function RouteDefault(queues: map<string, QueueArgs>, key: string): set<string> {
    if key in queues then {key} else {}
  }

  function Words(s: string): seq<string> {
    if s == "" then [""]
    else
      var rest := Words(s[1..]);
      if s[0] == '.' then [""] + rest else [[s[0]] + rest[0]] + rest[1..]
  }

  function Join(words: seq<string>): string {
    if words == [] then "" else if |words| == 1 then words[0] else words[0] + "." + Join(words[1..])
  }

  /** Topic matching of section 3.1.3.3 of AMQP 0-9-1: `*` stands for one word, `#` for any number of words. */
  predicate MatchesWords(pattern: seq<string>, key: seq<string>)
    decreases |pattern| + |key|
  {
    if pattern == [] then key == []
    else if pattern[0] == "#" then
      MatchesWords(pattern[1..], key) || (key != [] && MatchesWords(pattern, key[1..]))
    else key != [] && (pattern[0] == "*" || pattern[0] == key[0]) && MatchesWords(pattern[1..], key[1..])
  }

  predicate TopicMatches(pattern: string, key: string) {
    MatchesWords(Words(pattern), Words(key))
  }

  function RouteTopic(bindings: set<Binding>, exchange: string, key: string): set<string> {
    set b | b in bindings && b.exchange == exchange && TopicMatches(b.pattern, key) :: b.queue
  }

  lemma {:induction false} WordsJoin(s: string)
    ensures Words(s) != [] && Join(Words(s)) == s
  {
    if s != "" {
      var rest := Words(s[1..]);
      WordsJoin(s[1..]);
      if s[0] == '.' {
        assert ([""] + rest)[1..] == rest;
        assert s == "" + "." + s[1..];
      } else {
        var words := [[s[0]] + rest[0]] + rest[1..];
        assert words[1..] == rest[1..];
        assert Join(words) == [s[0]] + Join(rest);
        assert s == [s[0]] + s[1..];
      }
    }
  }

  predicate NoWildcard(words: seq<string>) {
    forall i :: 0 <= i < |words| ==> words[i] != "*" && words[i] != "#"
  }

  /** Without wildcards a pattern matches exactly itself. */
  lemma {:induction false} ExactMatch(pattern: seq<string>, key: seq<string>)
    requires NoWildcard(pattern)
    ensures MatchesWords(pattern, key) <==> pattern == key
  {
    if pattern != [] && key != [] {
      ExactMatch(pattern[1..], key[1..]);
      assert pattern == [pattern[0]] + pattern[1..] && key == [key[0]] + key[1..];
    }
  }

  lemma {:induction false} WordsHaveNoWildcard(s: string)
    requires '*' !in s && '#' !in s
    ensures forall i :: 0 <= i < |Words(s)| ==> '*' !in Words(s)[i] && '#' !in Words(s)[i]
  {
    if s != "" {
      WordsHaveNoWildcard(s[1..]);
      WordsJoin(s[1..]);
    }
  }

  lemma TopicMatchesItselfOnly(pattern: string, key: string)
    requires '*' !in pattern && '#' !in pattern
    ensures TopicMatches(pattern, key) <==> pattern == key
  {
    WordsHaveNoWildcard(pattern);
    forall i | 0 <= i < |Words(pattern)| ensures Words(pattern)[i] != "*" && Words(pattern)[i] != "#" {
      assert "*"[0] == '*' && "#"[0] == '#';
    }
    ExactMatch(Words(pattern), Words(key));
    WordsJoin(pattern);
    WordsJoin(key);
  }

  // ---------------------------------------------------------------- main results

  lemma BindingMatches(c: Channel, d: Channel)
    ensures TopicMatches(RoutingKey(c), RoutingKey(d)) <==> c == d
  {
    TopicMatchesItselfOnly(RoutingKey(c), RoutingKey(d));
    assert RoutingKey(c) == RoutingKey(d) ==> RoutingKey(c)[13] == RoutingKey(d)[13];
  }

  lemma OneMatchingBinding(bindings: set<Binding>, exchange: string, key: string, only: Binding)
    requires only in bindings
    requires forall b :: b in bindings ==> (b.exchange == exchange && TopicMatches(b.pattern, key) <==> b == only)
    ensures RouteTopic(bindings, exchange, key) == {only.queue}
  {
  }

  lemma OwnBinding(b: Binding, c: Channel)
    requires b in {MainBinding(Email), MainBinding(Sms), MainBinding(Push)}
    ensures b.exchange == EXCHANGE && TopicMatches(b.pattern, RoutingKey(c)) <==> b == MainBinding(c)
  {
    var d :| b == MainBinding(d);
    BindingMatches(d, c);
  }

  lemma OwnRoute(bindings: set<Binding>, c: Channel)
    requires bindings == {MainBinding(Email), MainBinding(Sms), MainBinding(Push)}
    ensures RouteTopic(bindings, EXCHANGE, RoutingKey(c)) == {MainQueue(c)}
  {
    var key := RoutingKey(c);
    forall b | b in bindings
      ensures b.exchange == EXCHANGE && TopicMatches(b.pattern, key) <==> b == MainBinding(c)
    {
      OwnBinding(b, c);
    }
    OneMatchingBinding(bindings, EXCHANGE, key, MainBinding(c));
  }

  lemma DeclaredWithArgs(delays: seq<nat>, queues: map<string, QueueArgs>, bindings: set<Binding>, q: Queue)
    requires IsTopology(delays, queues, bindings) && Declares(delays, q)
    ensures Name(q) in queues && queues[Name(q)] == ArgsOf(delays, q)
  {
  }

  /**
   What the declared queues do to a message that nobody takes: rungs, and only rungs, time it out and pass it on; main
   queues, and only main queues, order it by priority, with as many levels as the highest weight needs.
   */
  lemma ArgumentsDeclared(delays: seq<nat>, queues: map<string, QueueArgs>, q: Queue)
    requires HasTopology(delays, queues) && Declares(delays, q)
    ensures Name(q) in queues
    ensures queues[Name(q)].ttl.Some? <==> q.RetryOf?
    ensures queues[Name(q)].deadLetter.Some? <==> q.RetryOf?
    ensures queues[Name(q)].maxPriority.Some? <==> q.MainOf?
    ensures q.MainOf? ==> queues[Name(q)].maxPriority == Some(PriorityWeight(High))
  {
  }

  /** A message published with a channel's routing key reaches that channel's main queue and no other. */
  lemma RoutedToOwnMainQueue(delays: seq<nat>, queues: map<string, QueueArgs>, bindings: set<Binding>, c: Channel)
    requires IsTopology(delays, queues, bindings)
    ensures RouteTopic(bindings, EXCHANGE, RoutingKey(c)) == {MainQueue(c)}
  {
    OwnRoute(bindings, c);
  }

  /** Where a queue's broker-side dead-lettering sends an expired message. */
  function ExpiryRoute(args: QueueArgs, bindings: set<Binding>): set<string> {
    match args.deadLetter
    case None => {}
    case Some(to) => RouteTopic(bindings, to.exchange, to.routingKey)
  }

  lemma RetryArgsRoute(bindings: set<Binding>, c: Channel, delay: nat)
    requires bindings == {MainBinding(Email), MainBinding(Sms), MainBinding(Push)}
    ensures ExpiryRoute(RetryArgs(c, delay), bindings) == {MainQueue(c)}
  {
    OwnRoute(bindings, c);
  }

  /** Whatever rung a message expires on, after that rung's delay, it returns to its own channel's main queue. */
  lemma ExpiryReturnsHome(delays: seq<nat>, queues: map<string, QueueArgs>, bindings: set<Binding>, q: Queue)
    requires IsTopology(delays, queues, bindings) && Declares(delays, q) && q.RetryOf?
    ensures Name(q) in queues && queues[Name(q)].ttl == Some(delays[q.rung - 1])
    ensures ExpiryRoute(queues[Name(q)], bindings) == {MainQueue(q.channel)}
  {
    DeclaredWithArgs(delays, queues, bindings, q);
    RetryArgsRoute(bindings, q.channel, delays[q.rung - 1]);
  }

  /** A publish to rung `k` is routed if and only if the loops declared that rung; a publish to the DLQ always is. */
  lemma DeclaredIffRouted(delays: seq<nat>, queues: map<string, QueueArgs>, bindings: set<Binding>,
                          c: Channel, k: nat)
    requires IsTopology(delays, queues, bindings)
    ensures RouteDefault(queues, RetryQueue(c, k)) == (if 1 <= k <= |delays| then {RetryQueue(c, k)} else {})
    ensures RouteDefault(queues, Dlq(c)) == {Dlq(c)}
  {
    assert Name(DlqOf(c)) in queues;
    if 1 <= k <= |delays| {
      assert Name(RetryOf(c, k)) in queues;
    } else if Name(RetryOf(c, k)) in queues {
      var q: Queue :| Declares(delays, q) && Name(q) == Name(RetryOf(c, k));
      NamesInjective(q, RetryOf(c, k));
    }
  }

  /** Every retry a worker may publish is routed if and only if maxRetries does not exceed the number of delays. */
  lemma LadderClosedIff(cfg: Config, queues: map<string, QueueArgs>, bindings: set<Binding>)
    requires IsTopology(cfg.retryDelaysMs, queues, bindings)
    ensures (forall c: Channel, k: nat :: 1 <= k && !Exhausted(cfg, k) ==> RouteDefault(queues, RetryQueue(c, k)) != {})
            <==> LadderCoversRetries(cfg)
  {
    forall c: Channel, k: nat
      ensures RouteDefault(queues, RetryQueue(c, k)) != {} <==> 1 <= k <= |cfg.retryDelaysMs|
    {
      DeclaredIffRouted(cfg.retryDelaysMs, queues, bindings, c, k);
    }
    if !LadderCoversRetries(cfg) {
      var k := |cfg.retryDelaysMs| + 1;
      assert !Exhausted(cfg, k) && RouteDefault(queues, RetryQueue(Email, k)) == {};
    }
  }

  /** The protocol's view of the ladder is the broker's: a retry is kept exactly when its queue was declared. */
  lemma ProtocolAgreesWithBroker(cfg: Config, queues: map<string, QueueArgs>, bindings: set<Binding>,
                                 c: Channel, rung: nat, now: nat)
    requires IsTopology(cfg.retryDelaysMs, queues, bindings)
    ensures ArrivalPlace(cfg, rung, now).Retry? <==> RouteDefault(queues, RetryQueue(c, rung)) == {RetryQueue(c, rung)}
    ensures ArrivalPlace(cfg, rung, now).Unroutable? <==> RouteDefault(queues, RetryQueue(c, rung)) == {}
  {
    DeclaredIffRouted(cfg.retryDelaysMs, queues, bindings, c, rung);
  }
}
