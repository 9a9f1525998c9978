/** Addresses, the cluster configuration, log entries and the messages of rpc.proto. */
module RaftTypes {

  datatype Option<+T> = None | Some(value: T)

  /** A server is known by its ip and port; the port alone tells two servers of one configuration apart. */
  datatype Addr = Addr(ip: string, port: int)

  ghost predicate DistinctPorts(c: seq<Addr>) {
    forall i, j :: 0 <= i < j < |c| ==> c[i].port != c[j].port
  }

  lemma DistinctTail(peers: seq<Addr>)
    requires peers != [] && DistinctPorts(peers)
    ensures DistinctPorts(peers[1..]) && peers[0] !in peers[1..]
  {
    assert forall j :: 0 <= j < |peers| - 1 ==> peers[1..][j] == peers[j + 1];
  }

  type Config = c: seq<Addr> | c != [] && DistinctPorts(c) witness [Addr("", 0)]

  function Majority(c: Config): nat {
    |c| / 2 + 1
  }

  /** A value read through std::map::operator[], which supplies 0 for an absent key. */
  function At<K>(m: map<K, int>, k: K): int {
    if k in m then m[k] else 0
  }

  datatype Entry = Entry(term: int, index: int, msg: string)

  datatype Msg =
    | RequestVote(term: int, latestIndex: int, latestTerm: int, lsn: int, from: Addr)
    | RespVote(ok: bool, term: int, lsn: int, from: Addr)
    | AppendEntry(term: int, prelogTerm: int, commitIndex: int, lsn: int, from: Addr,
                  entries: seq<Entry>, prelogIndex: int)
    | RespAppend(ok: bool, term: int, lsn: int, from: Addr, isEmptyAe: bool)

  datatype Packet = Packet(to: Addr, msg: Msg)

  /** A command on its way to the state machine, with the log index it was read from. */
  datatype Task = Task(index: int, msg: string)

  predicate IsRequest(m: Msg) {
    m.RequestVote? || m.AppendEntry?
  }
}
