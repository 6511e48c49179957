/** The mock server's list of live websocket connections, `WS_CONNECTIONS`,
    and what one `broadcast` does to it: a send is tried on every connection
    in list order, the ones that raise are collected in `to_remove`, and
    after the loop each collected connection is removed with `list.remove`.
    Which sends raise is an input: the set `failing`. */
module Hub {
  import opened Builtins

  /** A websocket connection, compared by identity. */
  type Conn = nat

  /** One message handed to one connection. */
  datatype Delivery<M> = Delivery(conn: Conn, msg: M)

  /** The connections whose send succeeds, in list order. */
  function Keep(conns: seq<Conn>, failing: set<Conn>): (r: seq<Conn>)
    ensures forall c :: c in r <==> c in conns && c !in failing
    ensures |r| <= |conns|
  {
    if conns == [] then []
    else (if conns[0] in failing then [] else [conns[0]]) + Keep(conns[1..], failing)
  }

  /** `to_remove`: the connections whose send raises, in list order. */
  function Failed(conns: seq<Conn>, failing: set<Conn>): (r: seq<Conn>)
    ensures forall c :: c in r <==> c in conns && c in failing
    ensures |r| <= |conns|
  {
    if conns == [] then []
    else (if conns[0] in failing then [conns[0]] else []) + Failed(conns[1..], failing)
  }

  /** `msg` sent to each of `conns`, in order. */
  function Addressed<M>(conns: seq<Conn>, msg: M): (r: seq<Delivery<M>>)
    ensures |r| == |conns|
    ensures forall i :: 0 <= i < |r| ==> r[i] == Delivery(conns[i], msg)
  {
    seq(|conns|, i requires 0 <= i < |conns| => Delivery(conns[i], msg))
  }

  /** The second loop of `broadcast`: remove each of `t` in turn, tolerating
      one that is already gone. */
  function RemoveEach(s: seq<Conn>, t: seq<Conn>): seq<Conn>
    decreases |t|
  {
    if t == [] then s else RemoveEach(RemoveFirst(s, t[0]), t[1..])
  }

  /** What the removal loop can do to the list: nothing is added, at most one
      occurrence goes per entry of `t`, and a connection not in `t` keeps
      every occurrence. */
  lemma {:induction false} RemoveEachOnlyRemoves(s: seq<Conn>, t: seq<Conn>)
    ensures multiset(RemoveEach(s, t)) <= multiset(s)
    ensures |s| - |t| <= |RemoveEach(s, t)| <= |s|
    ensures forall c :: c !in t ==> multiset(RemoveEach(s, t))[c] == multiset(s)[c]
    decreases |t|
  {
    if t != [] {
      RemoveFirstMultiset(s, t[0]);
      RemoveEachOnlyRemoves(RemoveFirst(s, t[0]), t[1..]);
      assert forall c :: c !in t ==> c != t[0] && c !in t[1..];
    }
  }

  lemma {:induction false} KeepAppend(s: seq<Conn>, t: seq<Conn>, failing: set<Conn>)
    ensures Keep(s + t, failing) == Keep(s, failing) + Keep(t, failing)
    decreases |s|
  {
    if s == [] {
      assert s + t == t;
    } else {
      assert (s + t)[0] == s[0] && (s + t)[1..] == s[1..] + t;
      KeepAppend(s[1..], t, failing);
    }
  }

  lemma {:induction false} FailedAppend(s: seq<Conn>, t: seq<Conn>, failing: set<Conn>)
    ensures Failed(s + t, failing) == Failed(s, failing) + Failed(t, failing)
    decreases |s|
  {
    if s == [] {
      assert s + t == t;
    } else {
      assert (s + t)[0] == s[0] && (s + t)[1..] == s[1..] + t;
      FailedAppend(s[1..], t, failing);
    }
  }

  /** Removing connections that `a` is not one of leaves `a` at the front. */
  lemma {:induction false} RemoveEachSkips(a: Conn, s: seq<Conn>, t: seq<Conn>)
    requires a !in t
    ensures RemoveEach([a] + s, t) == [a] + RemoveEach(s, t)
    decreases |t|
  {
    if t != [] {
      assert ([a] + s)[0] == a && ([a] + s)[1..] == s;
      assert RemoveFirst([a] + s, t[0]) == [a] + RemoveFirst(s, t[0]);
      RemoveEachSkips(a, RemoveFirst(s, t[0]), t[1..]);
    }
  }

  /** Removing, one by one, the connections whose send failed leaves exactly
      the others, in their original order; a connection listed twice that
      fails is collected twice and so removed twice. */
  lemma {:induction false} RemoveFailed(s: seq<Conn>, failing: set<Conn>)
    ensures RemoveEach(s, Failed(s, failing)) == Keep(s, failing)
    decreases |s|
  {
    if s != [] {
      var a, rest := s[0], s[1..];
      assert s == [a] + rest;
      RemoveFailed(rest, failing);
      if a in failing {
        assert Failed(s, failing) == [a] + Failed(rest, failing);
        assert RemoveFirst(s, a) == rest;
      } else {
        assert Failed(s, failing) == Failed(rest, failing);
        RemoveEachSkips(a, rest, Failed(rest, failing));
      }
    }
  }

  /** Property of one broadcast: every connection present at the start either
      receives `msg` or was failing, and a failing one is gone afterwards. */
  lemma BroadcastReaches<M>(conns: seq<Conn>, failing: set<Conn>, msg: M, c: Conn)
    requires c in conns
    ensures c !in failing ==> Delivery(c, msg) in Addressed(Keep(conns, failing), msg)
    ensures c in failing ==> c !in Keep(conns, failing)
  {
    if c !in failing {
      var k := Keep(conns, failing);
      var i :| 0 <= i < |k| && k[i] == c;
      assert Addressed(k, msg)[i] == Delivery(c, msg);
    }
  }

  /** A connection that is not in the list (pruned earlier, or registered
      after the broadcast) receives nothing from it. */
  lemma AbsentReceivesNothing<M>(conns: seq<Conn>, failing: set<Conn>, msg: M, c: Conn)
    requires c !in conns
    ensures forall i :: 0 <= i < |Addressed(Keep(conns, failing), msg)| ==>
      Addressed(Keep(conns, failing), msg)[i].conn != c
  {
  }

  /** With no failures nothing is pruned. */
  lemma {:induction false} KeepAll(s: seq<Conn>, failing: set<Conn>)
    requires forall i :: 0 <= i < |s| ==> s[i] !in failing
    ensures Keep(s, failing) == s
    decreases |s|
  {
    if s != [] {
      KeepAll(s[1..], failing);
      assert s == [s[0]] + s[1..];
    }
  }
}
