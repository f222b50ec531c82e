/** What the connection and message helpers acquire and release on each exit path
    (`dccs_connect`, `dccs_listen`, `send_message`, `recv_message`). */
module Connection {
  import opened Exchange

  datatype Resource = AddrInfo | ListenEndpoint | Endpoint

  /** The library objects a process holds. */
  class Pool {
    var live: set<Resource>

    constructor ()
      ensures live == {}
    {
      live := {};
    }

    method Acquire(r: Resource)
      requires r !in live
      modifies this
      ensures live == old(live) + {r}
    {
      live := live + {r};
    }

    method Release(r: Resource)
      requires r in live
      modifies this
      ensures live == old(live) - {r}
    {
      live := live - {r};
    }
  }

  /** What the calls of `dccs_connect` return, in order; 0 is success. */
  datatype ConnectAnswers = ConnectAnswers(addrinfo: int, createEp: int, tos: int, connect: int)
  {
    predicate Succeeds() { addrinfo == 0 && createEp == 0 && tos == 0 && connect == 0 }

    function FirstFailure(): int {
      if addrinfo != 0 then addrinfo else if createEp != 0 then createEp else if tos != 0 then tos else connect
    }

    /** The exit that jumps past `rdma_destroy_ep`. */
    predicate LeavesAtTos() { addrinfo == 0 && createEp == 0 && tos != 0 }
  }

  /** On success the endpoint is kept and the address list released. A failing call releases what
      it acquired, except when setting the type of service fails: then the endpoint stays. */
  method Connect(pool: Pool, a: ConnectAnswers) returns (rv: int)
    requires pool.live == {}
    modifies pool
    ensures rv == 0 <==> a.Succeeds()
    ensures rv == a.FirstFailure()
    ensures pool.live == if rv == 0 || a.LeavesAtTos() then {Endpoint} else {}
  {
    rv := a.addrinfo;
    if rv != 0 { return; }
    pool.Acquire(AddrInfo);
    rv := a.createEp;
    if rv == 0 {
      pool.Acquire(Endpoint);
      rv := a.tos;
      if rv == 0 {
        rv := a.connect;
        if rv != 0 { pool.Release(Endpoint); }
      }
    }
    pool.Release(AddrInfo);
  }

  /** The leak: after any failure of the option call alone, the process still holds an endpoint
      that no later call releases. */
  method TosFailureLeaks(code: int) returns (pool: Pool, rv: int)
    requires code != 0
    ensures fresh(pool) && rv == code && pool.live == {Endpoint}
  {
    pool := new Pool();
    rv := Connect(pool, ConnectAnswers(0, 0, code, 0));
  }

  datatype ListenAnswers = ListenAnswers(addrinfo: int, createEp: int, listen: int, request: int, accept: int)
  {
    predicate Succeeds() { addrinfo == 0 && createEp == 0 && listen == 0 && request == 0 && accept == 0 }

    function FirstFailure(): int {
      if addrinfo != 0 then addrinfo else if createEp != 0 then createEp else if listen != 0 then listen
      else if request != 0 then request else accept
    }
  }

  /** On success both endpoints are kept; every failing exit releases exactly what was acquired. */
  method Listen(pool: Pool, a: ListenAnswers) returns (rv: int)
    requires pool.live == {}
    modifies pool
    ensures (rv == 0 <==> a.Succeeds()) && rv == a.FirstFailure()
    ensures pool.live == if rv == 0 then {ListenEndpoint, Endpoint} else {}
  {
    rv := a.addrinfo;
    if rv != 0 { return; }
    pool.Acquire(AddrInfo);
    rv := a.createEp;
    if rv == 0 {
      pool.Acquire(ListenEndpoint);
      rv := a.listen;
      if rv == 0 {
        rv := a.request;
        if rv == 0 {
          pool.Acquire(Endpoint);
          rv := a.accept;
          if rv != 0 { pool.Release(Endpoint); }
        }
      }
      if rv != 0 { pool.Release(ListenEndpoint); }
    }
    pool.Release(AddrInfo);
  }

  /** `send_message` and `recv_message`: register, post, wait, deregister. The post returns 0 or
      -1, the wait 1 or -1. */
  method Message(reg: Registry, handle: nat, registered: bool, post: int, comp: int) returns (rv: int)
    requires handle !in reg.live && post in {0, -1} && comp in {1, -1}
    modifies reg
    ensures reg.live == old(reg.live)
    ensures rv >= 0 <==> registered && post == 0 && comp == 1
  {
    rv := -1;
    reg.Register(handle, registered);
    if registered {
      rv := post;
      if rv == 0 { rv := comp; }
      reg.Deregister(handle);
    }
  }
}
