/** The Elixir SSE broker: a server process holding a map from channels to sets of subscriber
    processes, against the plain relation it stands for. */
module ElixirBroker {

  type Pid = nat
  type Channels = map<string, set<Pid>>
  type Relation = set<(string, Pid)>

  function Subscribers(m: Channels, channel: string): set<Pid> {
    if channel in m then m[channel] else {}
  }

  function Subscribe(m: Channels, channel: string, pid: Pid): Channels {
    m[channel := Subscribers(m, channel) + {pid}]
  }

  function Unsubscribe(m: Channels, channel: string, pid: Pid): Channels {
    var subs := Subscribers(m, channel) - {pid};
    if |subs| == 0 then m - {channel} else m[channel := subs]
  }

  /** A subscriber process died: it leaves every channel, and emptied channels are rejected. */
  function Down(m: Channels, pid: Pid): Channels {
    map ch | ch in m && |m[ch] - {pid}| != 0 :: m[ch] - {pid}
  }

  ghost function Pick(m: Channels): string
    requires m != map[]
  {
    var ch :| ch in m; ch
  }

  /** The sum of the set sizes, in whatever order the map is walked. */
  ghost function Total(m: Channels): nat {
    if m == map[] then 0 else |m[Pick(m)]| + Total(m - {Pick(m)})
  }

  datatype Request = Sub(channel: string, pid: Pid) | Unsub(channel: string, pid: Pid) | Died(pid: Pid)

  ghost function Run(rs: seq<Request>): Channels {
    if rs == [] then map[]
    else
      var m := Run(rs[..|rs| - 1]);
      match rs[|rs| - 1]
      case Sub(ch, pid) => Subscribe(m, ch, pid)
      case Unsub(ch, pid) => Unsubscribe(m, ch, pid)
      case Died(pid) => Down(m, pid)
  }

  /** The reference: a set of pairs. */
  ghost function Reference(rs: seq<Request>): Relation {
    if rs == [] then {}
    else
      var r := Reference(rs[..|rs| - 1]);
      match rs[|rs| - 1]
      case Sub(ch, pid) => r + {(ch, pid)}
      case Unsub(ch, pid) => r - {(ch, pid)}
      case Died(pid) => set x | x in r && x.1 != pid
  }

  ghost function Pairs(m: Channels): Relation {
    set ch, pid | ch in m && pid in m[ch] :: (ch, pid)
  }

  ghost predicate NoEmptyChannel(m: Channels) {
    forall ch :: ch in m ==> m[ch] != {}
  }

  lemma SubscribePairs(m: Channels, channel: string, pid: Pid)
    ensures Pairs(Subscribe(m, channel, pid)) == Pairs(m) + {(channel, pid)}
  {
  }

  lemma UnsubscribePairs(m: Channels, channel: string, pid: Pid)
    ensures Pairs(Unsubscribe(m, channel, pid)) == Pairs(m) - {(channel, pid)}
  {
  }

  lemma DownPairs(m: Channels, pid: Pid)
    ensures Pairs(Down(m, pid)) == set x | x in Pairs(m) && x.1 != pid
  {
  }

  /** Over every sequence of requests the map is the relation, with no empty channel kept. */
  lemma {:induction false} RunRefinesRelation(rs: seq<Request>)
    ensures Pairs(Run(rs)) == Reference(rs) && NoEmptyChannel(Run(rs))
  {
    if rs != [] {
      RunRefinesRelation(rs[..|rs| - 1]);
      var m := Run(rs[..|rs| - 1]);
      match rs[|rs| - 1]
      case Sub(ch, pid) => SubscribePairs(m, ch, pid);
      case Unsub(ch, pid) => UnsubscribePairs(m, ch, pid);
      case Died(pid) => DownPairs(m, pid);
    }
  }

  ghost function Tagged(ch: string, pids: set<Pid>): Relation {
    set pid | pid in pids :: (ch, pid)
  }

  lemma {:induction false} TaggedSize(ch: string, pids: set<Pid>)
    ensures |Tagged(ch, pids)| == |pids|
    decreases pids
  {
    if pids == {} {
      assert Tagged(ch, pids) == {};
    } else {
      var p :| p in pids;
      TaggedSize(ch, pids - {p});
      assert Tagged(ch, pids) == Tagged(ch, pids - {p}) + {(ch, p)};
      assert (ch, p) !in Tagged(ch, pids - {p});
    }
  }

  lemma {:induction false} TotalCountsPairs(m: Channels)
    ensures Total(m) == |Pairs(m)|
    decreases m.Keys
  {
    if m == map[] {
      assert Pairs(m) == {};
    } else {
      var ch := Pick(m);
      var rest := m - {ch};
      TotalCountsPairs(rest);
      TaggedSize(ch, m[ch]);
      var here := Tagged(ch, m[ch]);
      assert Pairs(m) == Pairs(rest) + here;
      assert Pairs(rest) !! here;
      assert |Pairs(m)| == |Pairs(rest)| + |here|;
    }
  }

  /** What callers see over every run: the total is the number of pairs, and a publish reaches
      exactly the processes paired with the channel and reports how many they are. */
  lemma {:induction false} CallersSeeTheRelation(rs: seq<Request>, channel: string)
    ensures Total(Run(rs)) == |Reference(rs)|
    ensures Subscribers(Run(rs), channel) == set x | x in Reference(rs) && x.0 == channel :: x.1
    ensures |Subscribers(Run(rs), channel)| == |set x | x in Reference(rs) && x.0 == channel|
  {
    RunRefinesRelation(rs);
    TotalCountsPairs(Run(rs));
    var subs := Subscribers(Run(rs), channel);
    forall pid | pid in subs ensures (channel, pid) in Reference(rs) {
      assert (channel, pid) in Pairs(Run(rs));
    }
    forall x | x in Reference(rs) && x.0 == channel ensures x.1 in subs {
      assert x in Pairs(Run(rs));
    }
    TaggedSize(channel, subs);
    assert Tagged(channel, subs) == set x | x in Reference(rs) && x.0 == channel;
  }
}
