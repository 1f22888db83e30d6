/**
  server/clients.go: the registry of authenticated, connected devices. Identifiers are
  unbounded, and the clock may show any time, the same one twice included.
*/
module Clients {
  /** clients.go's Client: one authenticated device that is connected now. */
  datatype Device = Device(name: string, addr: string, since: int, seqno: nat)

  /** The registry's order: by time of arrival, and by insertion on a coarse clock. */
  predicate Before(a: Device, b: Device) {
    a.since < b.since || (a.since == b.since && a.seqno < b.seqno)
  }

  ghost predicate Ordered(cs: seq<Device>) {
    forall i, j :: 0 <= i < j < |cs| ==> Before(cs[i], cs[j])
  }

  /** Every client carries the identifier it is filed under, and no identifier to come
      has been given out. */
  predicate WellFiled(m: map<nat, Device>, nextID: nat) {
    forall id <- m :: 1 <= id <= nextID && m[id].seqno == id
  }

  /** cs lists the clients of m, each once, in order. */
  ghost predicate Lists(cs: seq<Device>, m: map<nat, Device>) {
    && Ordered(cs)
    && (forall id <- m :: m[id] in cs)
    && (forall c <- cs :: c.seqno in m && m[c.seqno] == c)
  }

  class ClientRegistry {
    var clients: map<nat, Device>
    var nextID: nat
    var changes: nat // calls of onChange

    ghost predicate Valid()
      reads this
    {
      WellFiled(clients, nextID)
    }

    constructor ()
      ensures Valid() && clients == map[] && nextID == 0 && changes == 0
    {
      clients, nextID, changes := map[], 0, 0;
    }

    method Register(name: string, addr: string, now: int) returns (id: nat)
      requires Valid()
      modifies this
      ensures Valid() && id == nextID == old(nextID) + 1
      ensures id !in old(clients) && clients == old(clients)[id := Device(name, addr, now, id)]
      ensures changes == old(changes) + 1
    {
      nextID := nextID + 1;
      id := nextID;
      clients := clients[id := Device(name, addr, now, id)];
      changes := changes + 1;
    }

    method Deregister(id: nat)
      requires Valid()
      modifies this
      ensures Valid() && nextID == old(nextID) && clients == old(clients) - {id}
      ensures changes == old(changes) + if id in old(clients) then 1 else 0
    {
      var known := id in clients;
      clients := clients - {id};
      if known {
        changes := changes + 1;
      }
    }

    /** The map is visited in any order; SnapshotIsUnique says that it does not show. */
    method Snapshot() returns (out: seq<Device>)
      requires Valid()
      ensures Lists(out, clients) && |out| == |clients|
      ensures forall i, j :: 0 <= i < j < |out| ==>
                out[i].since < out[j].since || (out[i].since == out[j].since && out[i].seqno < out[j].seqno)
    {
      out := [];
      var left := clients.Keys;
      while left != {}
        invariant left <= clients.Keys && |out| + |left| == |clients|
        invariant forall id <- clients :: id in left || clients[id] in out
        invariant forall c <- out :: c.seqno in clients && c.seqno !in left && clients[c.seqno] == c
        invariant forall i, j :: 0 <= i < j < |out| ==> out[i].seqno != out[j].seqno
        decreases left
      {
        var id :| id in left;
        out := out + [clients[id]];
        left := left - {id};
      }
      out := SortByAge(out);
    }
  }

  /** Sorting clients that differ in their sequence numbers. */
  method SortByAge(cs: seq<Device>) returns (out: seq<Device>)
    requires forall i, j :: 0 <= i < j < |cs| ==> cs[i].seqno != cs[j].seqno
    ensures Ordered(out) && |out| == |cs| && (forall c :: c in out <==> c in cs)
  {
    out := [];
    for k := 0 to |cs|
      invariant Ordered(out) && |out| == k && forall c :: c in out <==> c in cs[..k]
    {
      forall c | c in out ensures c.seqno != cs[k].seqno {
        var i :| 0 <= i < k && cs[i] == c;
      }
      out := Insert(cs[k], out);
    }
  }

  method Insert(c: Device, cs: seq<Device>) returns (out: seq<Device>)
    requires Ordered(cs) && forall d <- cs :: d.seqno != c.seqno
    ensures Ordered(out) && |out| == |cs| + 1 && forall d :: d in out <==> d == c || d in cs
  {
    var i := 0;
    while i < |cs| && Before(cs[i], c)
      invariant i <= |cs| && forall j :: 0 <= j < i ==> Before(cs[j], c)
    {
      i := i + 1;
    }
    out := cs[..i] + [c] + cs[i..];
    assert cs == cs[..i] + cs[i..];
    assert forall j :: i <= j < |cs| ==> Before(c, cs[j]);
  }

  /** A registry has exactly one listing, so the map's iteration order cannot be seen. */
  lemma SnapshotIsUnique(a: seq<Device>, b: seq<Device>, m: map<nat, Device>)
    requires Lists(a, m) && Lists(b, m)
    ensures a == b
  {
    SameElements(a, b);
  }

  lemma {:induction false} SameElements(a: seq<Device>, b: seq<Device>)
    requires Ordered(a) && Ordered(b) && forall c :: c in a <==> c in b
    ensures a == b
    decreases |a|
  {
    assert a != [] ==> a[0] in a && a[0] in b;
    assert b != [] ==> b[0] in b && b[0] in a;
    if a != [] {
      assert a[0] == b[0];
      TailElements(a);
      TailElements(b);
      SameElements(a[1..], b[1..]);
      assert a == [a[0]] + a[1..] && b == [b[0]] + b[1..];
    }
  }

  lemma TailElements(a: seq<Device>)
    requires Ordered(a) && a != []
    ensures Ordered(a[1..]) && forall c :: c in a[1..] <==> c in a && c != a[0]
  {
  }

  /** Each client appears in a listing at exactly one place. */
  lemma ListedOnce(cs: seq<Device>, m: map<nat, Device>, id: nat)
    requires Lists(cs, m) && id in m
    ensures exists i :: 0 <= i < |cs| && cs[i] == m[id] && forall j :: 0 <= j < |cs| && cs[j] == m[id] ==> j == i
  {
  }
}
