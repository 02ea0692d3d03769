/** Priorities: the weights that messages carry are in the order of the priorities that clients asked for. */
module PriorityOrder {
  import opened Domain
  import opened Protocol
  import opened Agreement
  import opened Topology

  /** LOW comes before NORMAL, and NORMAL before HIGH. */
  predicate Before(p: Priority, q: Priority) {
    match p
    case Low => q != Low
    case Normal => q == High
    case High => false
  }

  /** The weights have that order, and the levels of a declared main queue tell them apart. */
  lemma WeightsFollowPriorities(delays: seq<nat>, queues: map<string, QueueArgs>, c: Channel, p: Priority, q: Priority)
    requires HasTopology(delays, queues)
    ensures Before(p, q) <==> PriorityWeight(p) < PriorityWeight(q)
    ensures MainQueue(c) in queues && queues[MainQueue(c)].maxPriority.Some?
    ensures 1 <= PriorityWeight(p) <= queues[MainQueue(c)].maxPriority.value
  {
    ArgumentsDeclared(delays, queues, MainOf(c));
  }

  /**
   In every reachable state the queue prefers, of two messages in one main queue, the one whose row has the higher
   priority, whatever their attempts: its envelope is larger, and both are within the queue's levels.
   */
  lemma QueueFollowsPriorities(cfg: Config, acts: seq<Action>, i: nat, j: nat, queues: map<string, QueueArgs>)
    requires Exec(cfg, Init(), acts).Some? && HasTopology(cfg.retryDelaysMs, queues)
    requires var copies := Exec(cfg, Init(), acts).value.copies;
             && i < |copies| && j < |copies| && copies[i].place.Main? && copies[j].place.Main?
             && copies[i].channel == copies[j].channel
    ensures var s := Exec(cfg, Init(), acts).value;
            && s.copies[i].body.id in s.rows && s.copies[j].body.id in s.rows
            && (Before(s.rows[s.copies[i].body.id].priority, s.rows[s.copies[j].body.id].priority) <==>
                s.copies[i].envelopePriority < s.copies[j].envelopePriority)
            && MainQueue(s.copies[i].channel) in queues
            && queues[MainQueue(s.copies[i].channel)].maxPriority.Some?
            && 1 <= s.copies[i].envelopePriority <= queues[MainQueue(s.copies[i].channel)].maxPriority.value
  {
    var s := Exec(cfg, Init(), acts).value;
    AgreedRun(cfg, acts);
    assert CopyOk(cfg, s, s.copies[i]) && CopyOk(cfg, s, s.copies[j]);
    WeightsFollowPriorities(cfg.retryDelaysMs, queues, s.copies[i].channel, s.rows[s.copies[i].body.id].priority,
                            s.rows[s.copies[j].body.id].priority);
  }
}
