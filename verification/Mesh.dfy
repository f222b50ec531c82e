/** The full-mesh launch rule of `opera-ll-traffic.sh`: every host runs the same script and
    decides on its own which servers and clients to start. */
module Mesh {
  import opened Memory

  datatype Role = Server | Client

  /** A started process: its role, the host at the other end, its port and its core. */
  datatype Launch = Launch(role: Role, peer: nat, port: nat, core: nat)

  /** The power of ten with as many zeros as `num` has digits. */
  function Tens(num: nat): (r: nat)
    ensures r >= 10
  {
    if num < 10 then 10 else 10 * Tens(num / 10)
  }

  /** The port is the prefix "100" followed by the digits of the lower host number. */
  function PortOf(num: nat): nat { 100 * Tens(num) + num }

  /** Taken apart again at its last digits, as many as `num` has, a port is 100 and `num`. */
  lemma PortReads(num: nat)
    ensures PortOf(num) / Tens(num) == 100 && PortOf(num) % Tens(num) == num
    ensures num >= 10 ==> Tens(num) <= 10 * num
  {
    TensCover(num);
    DivModUnique(100, num, Tens(num));
  }

  lemma {:induction false} TensCover(num: nat)
    ensures num < Tens(num) && (num >= 10 ==> Tens(num) <= 10 * num)
  {
    if num >= 10 { TensCover(num / 10); }
  }

  lemma {:induction false} TensGrow(a: nat, b: nat)
    requires a <= b
    ensures Tens(a) <= Tens(b)
  {
    if a >= 10 { TensGrow(a / 10, b / 10); }
  }

  /** Different hosts have different ports, in the same order. */
  lemma PortsIncrease(a: nat, b: nat)
    requires a < b
    ensures PortOf(a) < PortOf(b)
  {
    TensGrow(a, b);
  }

  /** The rule gives a port number for hosts of at most two digits, and for no others. */
  lemma PortExists(num: nat)
    ensures PortOf(num) < 0x1_0000 <==> num < 100
  {
    if num < 100 {
      PortsIncreaseTo(num, 99);
    } else {
      PortsIncreaseTo(100, num);
    }
  }

  lemma PortsIncreaseTo(a: nat, b: nat)
    requires a <= b
    ensures PortOf(a) <= PortOf(b)
  {
    if a < b { PortsIncrease(a, b); }
  }

  /** `assign_core` */
  function AssignCore(num: nat, minHost: nat): nat
    requires minHost <= num
  {
    (num - minHost) / 2 + 8
  }

  /** The hosts are numbered `minHost`, `minHost + 2`, ... */
  function Host(minHost: nat, i: nat): nat { minHost + 2 * i }

  /** Every launch goes to the core of its peer: 8 for the first host, and one more for each next. */
  lemma CoreOfPeer(minHost: nat, n: nat, h: nat, k: nat)
    requires h < n && k < n - 1
    ensures var launch := Launches(minHost, n, h)[k];
            launch.core == AssignCore(launch.peer, minHost) == 8 + if k < h then k else k + 1
  {
    var i := if k < h then k else k + 1;
    assert Launches(minHost, n, h)[k].peer == Host(minHost, i);
    assert (Host(minHost, i) - minHost) / 2 == i;
  }

  /** Host number `h` of `n`: servers for every host before it, clients for every host after. */
  function Launches(minHost: nat, n: nat, h: nat): (r: seq<Launch>)
    requires h < n
    ensures |r| == n - 1
  {
    seq(n - 1, k requires 0 <= k < n - 1 => LaunchAt(minHost, h, k))
  }

  function LaunchAt(minHost: nat, h: nat, k: nat): Launch {
    if k < h then Launch(Server, Host(minHost, k), PortOf(Host(minHost, k)), 8 + k)
    else Launch(Client, Host(minHost, k + 1), PortOf(Host(minHost, h)), 8 + k + 1)
  }

  /** The two loops of the script on host `curr`. */
  method LaunchTraffic(minHost: nat, maxHost: nat, curr: nat, ghost n: nat, ghost h: nat) returns (out: seq<Launch>)
    requires h < n && curr == Host(minHost, h) && maxHost == Host(minHost, n - 1)
    ensures out == Launches(minHost, n, h)
  {
    out := [];
    var num := minHost;
    while num < curr
      invariant |out| <= h && num == Host(minHost, |out|)
      invariant forall k :: 0 <= k < |out| ==> out[k] == LaunchAt(minHost, h, k)
    {
      out := out + [Launch(Server, num, PortOf(num), AssignCore(num, minHost))];
      num := num + 2;
    }
    num := curr + 2;
    while num <= maxHost
      invariant h <= |out| <= n - 1 && num == Host(minHost, |out| + 1)
      invariant forall k :: 0 <= k < |out| ==> out[k] == LaunchAt(minHost, h, k)
    {
      out := out + [Launch(Client, num, PortOf(curr), AssignCore(num, minHost))];
      num := num + 2;
    }
  }

  /** `out` holds exactly one launch with this role and peer, at `k`. */
  ghost predicate ExactlyOne(out: seq<Launch>, role: Role, peer: nat, k: nat) {
    && k < |out| && out[k].role == role && out[k].peer == peer
    && (forall j :: 0 <= j < |out| && out[j].role == role && out[j].peer == peer ==> j == k)
  }

  ghost predicate NoneWith(out: seq<Launch>, role: Role, peer: nat) {
    forall j :: 0 <= j < |out| ==> !(out[j].role == role && out[j].peer == peer)
  }

  /** Every unordered pair is joined once: the higher host serves the lower on the lower's port,
      the lower connects to the higher on that same port, and there is nothing the other way. */
  lemma PairJoinedOnce(minHost: nat, n: nat, a: nat, b: nat)
    requires a < b < n
    ensures var low, high := Launches(minHost, n, a), Launches(minHost, n, b);
            && ExactlyOne(high, Server, Host(minHost, a), a)
            && ExactlyOne(low, Client, Host(minHost, b), b - 1)
            && high[a].port == low[b - 1].port == PortOf(Host(minHost, a))
            && NoneWith(low, Server, Host(minHost, b)) && NoneWith(high, Client, Host(minHost, a))
  {
    var low, high := Launches(minHost, n, a), Launches(minHost, n, b);
    assert high[a] == LaunchAt(minHost, b, a);
    assert low[b - 1] == LaunchAt(minHost, a, b - 1);
  }

  /** On one host no two processes share a core or a peer, and no two servers share a port. */
  lemma NoConflicts(minHost: nat, n: nat, h: nat, j: nat, k: nat)
    requires h < n && j < k < n - 1
    ensures var out := Launches(minHost, n, h);
            && out[j].core != out[k].core && out[j].peer != out[k].peer
            && (out[j].role == Server && out[k].role == Server ==> out[j].port != out[k].port)
            && out[j].peer != Host(minHost, h) && out[k].peer != Host(minHost, h)
  {
    PortsIncrease(Host(minHost, j), Host(minHost, k));
  }

  function TotalLaunches(minHost: nat, n: nat, h: nat): nat
    requires h <= n
  {
    if h == 0 then 0 else TotalLaunches(minHost, n, h - 1) + |Launches(minHost, n, h - 1)|
  }

  /** The experiment driver waits for `host_count * (host_count - 1)` processes; that is how many
      there are. */
  lemma {:induction false} LaunchesBelow(minHost: nat, n: nat, h: nat)
    requires h <= n
    ensures TotalLaunches(minHost, n, h) == h * (n - 1)
  {
    if h > 0 {
      LaunchesBelow(minHost, n, h - 1);
      assert (h - 1) * (n - 1) + (n - 1) == h * (n - 1);
    }
  }

  lemma ConnectionCount(minHost: nat, n: nat)
    ensures TotalLaunches(minHost, n, n) == n * (n - 1)
  {
    LaunchesBelow(minHost, n, n);
  }
}
