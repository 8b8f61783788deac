/**
 * The pooled resource and the idle-list element (conn.go).
 *
 * The pool never looks inside a connection: it only compares it with nil,
 * hands it out and calls its Close method. A connection is therefore modelled
 * by an identity; nil is `None` of `Option<Conn>`.
 */
module Conns {

  /** An opaque connection, identified by the object it stands for. */
  datatype Conn = Conn(id: nat)

  /** The `idleConn` pair: a connection and the time at which it became idle. */
  datatype IdleConn = IdleConn(c: Conn, t: int)

  /** The connections of a run of idle entries, in list order. */
  function ConnsOf(s: seq<IdleConn>): seq<Conn>
  {
    if s == [] then [] else [s[0].c] + ConnsOf(s[1..])
  }

  /** Appending an entry appends its connection. */
  lemma {:induction false} ConnsOfSnoc(s: seq<IdleConn>, e: IdleConn)
    ensures ConnsOf(s + [e]) == ConnsOf(s) + [e.c]
  {
    if s != [] {
      assert (s + [e])[1..] == s[1..] + [e];
      ConnsOfSnoc(s[1..], e);
    }
  }
}
