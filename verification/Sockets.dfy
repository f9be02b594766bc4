/** Getting a socket: the address cursor, and the loops that try one candidate
    address after the other until a connect or a bind succeeds. */
module Sockets {
  import opened Basics
  import opened RegistryModel
  import opened Registry

  /** One address of a lookup, with what the system calls on it will answer: the
      descriptor from socket() if any, whether SO_REUSEADDR can be set, and whether
      connect() or bind() succeeds. */
  datatype Candidate = Candidate(sock: Option<int>, reusable: bool, accepts: bool)

  /** A pointer into the linked list that getaddrinfo() returned. */
  datatype AddrList = Null | Node(candidate: Candidate, next: AddrList)

  ghost function Length(l: AddrList): nat {
    if l.Null? then 0 else 1 + Length(l.next)
  }

  /** The pointer to the k-th node, counting from 0; null from the end on. */
  ghost function NodeAt(l: AddrList, k: nat): AddrList {
    if l.Null? || k == 0 then l else NodeAt(l.next, k - 1)
  }

  ghost function CandidateAt(l: AddrList, k: nat): Candidate
    requires k < Length(l)
  {
    if k == 0 then l.candidate else CandidateAt(l.next, k - 1)
  }

  // ------------------------------------------------------------ the cursor

  datatype Cursor = Cursor(info: AddrList, current: AddrList)

  /** AddrInfo::next: it starts at the head, and at the last node answers null
      without moving. */
  function Advance(c: Cursor): (r: (Cursor, AddrList)) {
    if c.current.Null? then (c.(current := c.info), c.info)
    else if c.current.next.Null? then (c, Null)
    else (c.(current := c.current.next), c.current.next)
  }

  ghost function AfterNext(c: Cursor, k: nat): Cursor {
    if k == 0 then c else Advance(AfterNext(c, k - 1)).0
  }

  lemma NodeAtNext(l: AddrList, k: nat)
    ensures NodeAt(l, k).Null? <==> k >= Length(l)
    ensures NodeAt(l, k).Node? ==> NodeAt(l, k + 1) == NodeAt(l, k).next
  {
    if l.Node? && k > 0 {
      NodeAtNext(l.next, k - 1);
    }
  }

  /** Where the cursor stands after k calls: at node k - 1, and at the last node from
      then on. */
  lemma {:induction false} CursorAt(info: AddrList, k: nat)
    requires info.Node?
    ensures AfterNext(Cursor(info, Null), k) ==
            Cursor(info, if k == 0 then Null else NodeAt(info, (if k <= Length(info) then k else Length(info)) - 1))
  {
    if k > 0 {
      CursorAt(info, k - 1);
      if 2 <= k <= Length(info) {
        NodeAtNext(info, k - 2);
        NodeAtNext(info, k - 1);
      } else if k > Length(info) {
        NodeAtNext(info, Length(info) - 1);
        NodeAtNext(info, Length(info));
      }
    }
  }

  /** The calls of next() on a fresh list answer each node once, in order, and null
      ever after. */
  lemma CursorVisitsEachOnce(info: AddrList, k: nat)
    ensures Advance(AfterNext(Cursor(info, Null), k)).1 == NodeAt(info, k)
  {
    if info.Node? {
      CursorAt(info, k);
      if 1 <= k < Length(info) {
        NodeAtNext(info, k - 1);
        NodeAtNext(info, k);
      } else if k >= Length(info) {
        NodeAtNext(info, Length(info) - 1);
        NodeAtNext(info, Length(info));
        NodeAtNext(info, k);
      }
    } else {
      NullCursorStays(info, k);
    }
  }

  lemma NullCursorStays(info: AddrList, k: nat)
    requires info.Null?
    ensures AfterNext(Cursor(info, Null), k) == Cursor(info, Null)
  {
  }

  /** A lookup: getaddrinfo() fails with a status, or gives a list. */
  datatype Lookup = LookupFails | Found(list: AddrList)

  class AddrInfo {
    var info: AddrList
    var current: AddrList

    constructor ()
      ensures State() == Cursor(Null, Null)
    {
      info, current := Null, Null;
    }

    ghost function State(): Cursor
      reads this
    {
      Cursor(info, current)
    }

    method LoadHints(lookup: Lookup) returns (ok: bool)
      requires info.Null? ==> current.Null?
      modifies this
      ensures State() == Cursor(if lookup.Found? then lookup.list else Null, Null)
      ensures ok == lookup.Found?
    {
      if info.Node? {
        info, current := Null, Null;
      }
      if lookup.LookupFails? {
        info := Null;
        return false;
      }
      info := lookup.list;
      return true;
    }

    method Next() returns (r: AddrList)
      modifies this
      ensures (State(), r) == Advance(old(State()))
    {
      if current.Null? {
        current := info;
        return current;
      }
      if current.next.Null? {
        return Null;
      }
      current := current.next;
      return current;
    }
  }

  // ----------------------------------------------------------- acquisition

  /** A candidate that is tried in full and turned down: its socket was opened, made
      reusable where that is asked for, and then refused. */
  ghost predicate Refused(c: Candidate, binding: bool) {
    c.sock.Some? && (binding ==> c.reusable) && !c.accepts
  }

  ghost predicate Accepted(c: Candidate, binding: bool) {
    c.sock.Some? && (binding ==> c.reusable) && c.accepts
  }

  /** The socket that trying the candidates in turn ends with, if any.  A refusal
      goes on to the next one; a missing socket or option ends the search. */
  function Acquired(l: AddrList, binding: bool): Option<int> {
    if l.Null? then None
    else if l.candidate.sock.None? || (binding && !l.candidate.reusable) then None
    else if l.candidate.accepts then l.candidate.sock
    else Acquired(l.next, binding)
  }

  function AcquiredFrom(lookup: Lookup, binding: bool): Option<int> {
    if lookup.LookupFails? then None else Acquired(lookup.list, binding)
  }

  /** Candidate k is accepted, and every one before it was refused. */
  ghost predicate WonAt(l: AddrList, k: nat, binding: bool) {
    && k < Length(l) && Accepted(CandidateAt(l, k), binding)
    && forall j: nat :: j < k ==> Refused(CandidateAt(l, j), binding)
  }

  /** A socket comes out exactly when some candidate is accepted after refusals
      only, and it is that candidate's. */
  lemma {:induction false} AcquiredIff(l: AddrList, binding: bool, fd: int)
    ensures Acquired(l, binding) == Some(fd) <==>
            exists k: nat :: WonAt(l, k, binding) && CandidateAt(l, k).sock == Some(fd)
  {
    if l.Node? {
      AcquiredIff(l.next, binding, fd);
      if Refused(l.candidate, binding) {
        if Acquired(l.next, binding) == Some(fd) {
          var k: nat :| WonAt(l.next, k, binding) && CandidateAt(l.next, k).sock == Some(fd);
          assert WonAt(l, k + 1, binding) && CandidateAt(l, k + 1).sock == Some(fd);
        }
        forall k: nat | WonAt(l, k, binding) && CandidateAt(l, k).sock == Some(fd)
          ensures Acquired(l.next, binding) == Some(fd)
        {
          assert k > 0;
          assert forall j: nat :: j < k - 1 ==> CandidateAt(l.next, j) == CandidateAt(l, j + 1);
          assert WonAt(l.next, k - 1, binding);
        }
      } else {
        forall k: nat | WonAt(l, k, binding) ensures k == 0 {
          assert k > 0 ==> Refused(CandidateAt(l, 0), binding);
        }
        if Acquired(l, binding) == Some(fd) {
          assert WonAt(l, 0, binding) && CandidateAt(l, 0).sock == Some(fd);
        }
      }
    }
  }

  /** Trying the addresses of a lookup in turn, from its first one, ends with descriptor
      fd: one of them is accepted with it, after nothing but refusals. */
  ghost predicate Wins(lookup: Lookup, binding: bool, fd: int) {
    lookup.Found? &&
    exists k: nat :: WonAt(lookup.list, k, binding) && CandidateAt(lookup.list, k).sock == Some(fd)
  }

  lemma AcquiredFromIff(lookup: Lookup, binding: bool)
    ensures forall fd :: AcquiredFrom(lookup, binding) == Some(fd) <==> Wins(lookup, binding, fd)
  {
    if lookup.Found? {
      forall fd ensures AcquiredFrom(lookup, binding) == Some(fd) <==> Wins(lookup, binding, fd) {
        AcquiredIff(lookup.list, binding, fd);
      }
    }
  }

  /** In particular a host whose first address is accepted gets its socket. */
  lemma FirstAddressWins(c: Candidate, more: AddrList, binding: bool)
    requires Accepted(c, binding)
    ensures Wins(Found(Node(c, more)), binding, c.sock.value)
  {
    assert WonAt(Node(c, more), 0, binding);
  }

  /** The descriptors that one call has open. */
  class FdTable {
    var open: set<int>

    constructor ()
      ensures open == {}
    {
      open := {};
    }

    method Socket(c: Candidate) returns (fd: Option<int>)
      modifies this
      ensures fd == c.sock
      ensures open == old(open) + (if fd.Some? then {fd.value} else {})
    {
      fd := c.sock;
      if fd.Some? {
        open := open + {fd.value};
      }
    }

    /** Only what the call opened, and has not closed yet, may be closed. */
    method Close(fd: int)
      requires fd in open
      modifies this
      ensures open == old(open) - {fd}
    {
      open := open - {fd};
    }
  }

  /** The loop over the candidates, from the pointer that the first next() gave. */
  method TryCandidates(info: AddrInfo, first: AddrList, binding: bool, table: FdTable) returns (sock: Option<int>)
    requires first.Node? ==> info.current == first
    requires table.open == {}
    modifies table, info
    ensures sock == Acquired(first, binding)
    ensures table.open == if sock.Some? then {sock.value} else {}
  {
    var nextInfo := first;
    while nextInfo.Node?
      invariant nextInfo.Node? ==> info.current == nextInfo
      invariant table.open == {}
      invariant Acquired(nextInfo, binding) == Acquired(first, binding)
      decreases nextInfo
    {
      var c := nextInfo.candidate;
      sock := table.Socket(c);
      if sock.None? {
        return;
      }
      if binding && !c.reusable {
        table.Close(sock.value);
        return None;
      }
      if c.accepts {
        return;
      }
      table.Close(sock.value);
      nextInfo := info.Next();
    }
    return None;
  }

  /** The lookup and the loop, up to the socket that is to be registered.  It is the
      only descriptor of this call that is still open at the end. */
  method AcquireSocket(lookup: Lookup, binding: bool) returns (sock: Option<int>, ghost left: set<int>)
    ensures sock == AcquiredFrom(lookup, binding)
    ensures forall fd :: sock == Some(fd) <==> Wins(lookup, binding, fd)
    ensures left == if sock.Some? then {sock.value} else {}
  {
    AcquiredFromIff(lookup, binding);
    var table := new FdTable();
    left := {};
    var info := new AddrInfo();
    var found := info.LoadHints(lookup);
    if !found {
      return None, left;
    }
    var nextInfo := info.Next();
    if nextInfo.Null? {
      return None, left;
    }
    sock := TryCandidates(info, nextInfo, binding, table);
    left := table.open;
  }

  /** NetworkDevice::createAndConnectSocket and createAndBindSocket; they differ only
      in the option that binding sets first. */
  method CreateSocket(dev: Device, lookup: Lookup, binding: bool, ghost u: Universe)
    returns (code: ReturnCode, ghost left: set<int>)
    requires dev in u.devices && u.Closed()
    modifies u.engines, dev
    ensures u.Closed()
    ensures code == if AcquiredFrom(lookup, binding).Some? then OK else NOK
    ensures forall fd :: Wins(lookup, binding, fd) <==> code == OK && left == {fd}
    ensures left == if code == OK then {AcquiredFrom(lookup, binding).value} else {}
    ensures u.View() == if code == OK then NewHandle(old(u.View()), dev, AcquiredFrom(lookup, binding))
                        else old(u.View())
  {
    hide AcquiredFrom, Wins, NewHandle;
    var sock;
    sock, left := AcquireSocket(lookup, binding);
    if sock.None? {
      return NOK, left;
    }
    dev.RegisterNewHandle(sock, u);
    return OK, left;
  }
}
