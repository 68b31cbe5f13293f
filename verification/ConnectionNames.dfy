/**
  The names under which `TcpServer` files its connections.  The suffix is formatted into 32 bytes, so a
  long connection number loses its last digits.
 */
module ConnectionNames {

  import opened LogStreams

  const SUFFIX_SIZE: nat := 32
  /** The longest host:port of IPv4, as in 255.255.255.255:65535. */
  const MAX_HOSTPORT: nat := 21

  /** `snprintf` into `size` bytes, of which the last is the NUL. */
  function Printed(s: string, size: nat): string
    requires size > 0
  {
    if |s| < size then s else s[..size - 1]
  }

  function Name(server: string, hostport: string, id: int): string {
    server + Printed(":" + hostport + "#" + DecimalText(id), SUFFIX_SIZE)
  }

  /** What is left for the digits of the number. */
  function Room(hostport: string): int {
    29 - |hostport|
  }

  function Digits(id: nat, room: nat): string {
    if |Numeral(id, 10)| <= room then Numeral(id, 10) else Numeral(id, 10)[..room]
  }

  lemma NameIs(server: string, hostport: string, id: nat)
    requires Room(hostport) >= 0
    ensures Name(server, hostport, id) == server + (":" + hostport + "#") + Digits(id, Room(hostport))
  {
    hide Numeral;
    var front := ":" + hostport + "#";
    var s := front + Numeral(id, 10);
    assert |front| == |hostport| + 2;
    if |s| >= SUFFIX_SIZE {
      assert s[..SUFFIX_SIZE - 1] == front + Numeral(id, 10)[..Room(hostport)];
    }
    assert server + (front + Digits(id, Room(hostport))) == server + front + Digits(id, Room(hostport));
  }

  /** Two numbers get the same name exactly if the digits that fit are the same. */
  lemma NamesCollideExactly(server: string, hostport: string, i: nat, j: nat)
    requires Room(hostport) >= 0
    ensures Name(server, hostport, i) == Name(server, hostport, j) <==>
            Digits(i, Room(hostport)) == Digits(j, Room(hostport))
  {
    hide Digits, Name;
    NameIs(server, hostport, i);
    NameIs(server, hostport, j);
    var front := server + (":" + hostport + "#");
    assert (front + Digits(i, Room(hostport)))[|front|..] == Digits(i, Room(hostport));
    assert (front + Digits(j, Room(hostport)))[|front|..] == Digits(j, Room(hostport));
  }

  lemma DigitsTellNumbersApart(i: nat, j: nat, room: nat)
    requires room > 0 && i < Pow(10, room) && j < Pow(10, room)
    requires Digits(i, room) == Digits(j, room)
    ensures i == j
  {
    hide Numeral;
    DigitCount(i, 10, room);
    DigitCount(j, 10, room);
    NumeralRoundTrip(i, 10);
    NumeralRoundTrip(j, 10);
  }

  /** A power of ten and the next one have the same leading digits. */
  lemma PowersOfTenCollide(room: nat)
    requires room > 0
    ensures Digits(Pow(10, room - 1), room) == Digits(Pow(10, room), room)
    ensures 0 < Pow(10, room - 1) < Pow(10, room)
  {
    hide Numeral, Pow;
    var i, j := Pow(10, room - 1), Pow(10, room);
    PowIsPositive(10, room - 1);
    PowStep(10, room);
    assert j == 10 * i && j / 10 == i && j % 10 == 0;
    DigitCount(i, 10, room);
    if room > 1 { DigitCount(i, 10, room - 1); }
    NumeralStep(j, 10);
    assert Numeral(j, 10)[..|Numeral(i, 10)|] == Numeral(i, 10);
  }

  /** The first `n` connections of a server have different names exactly if all their digits fit. */
  lemma NamesAreDistinctExactly(server: string, hostport: string, n: nat)
    requires Room(hostport) > 0
    ensures n < Pow(10, Room(hostport)) <==>
            forall i: nat, j: nat :: 1 <= i < j <= n ==> Name(server, hostport, i) != Name(server, hostport, j)
  {
    hide Name, Digits, Pow;
    var room: nat := Room(hostport);
    if n < Pow(10, room) {
      forall i: nat, j: nat | 1 <= i < j <= n
        ensures Name(server, hostport, i) != Name(server, hostport, j)
      {
        NamesCollideExactly(server, hostport, i, j);
        if Digits(i, room) == Digits(j, room) { DigitsTellNumbersApart(i, j, room); }
      }
    } else {
      PowersOfTenCollide(room);
      NamesCollideExactly(server, hostport, Pow(10, room - 1), Pow(10, room));
    }
  }

  /** Whatever its address, the first 99,999,999 connections of a server have different names. */
  lemma FirstConnectionsAreDistinct(server: string, hostport: string, i: nat, j: nat)
    requires |hostport| <= MAX_HOSTPORT && 1 <= i < j <= 99_999_999
    ensures Name(server, hostport, i) != Name(server, hostport, j)
  {
    hide Name;
    TenToThe8();
    PowGrows(8, Room(hostport));
    NamesAreDistinctExactly(server, hostport, 99_999_999);
  }

  /** With the longest address the next one is filed under a name given before. */
  lemma NextConnectionCollides(server: string, hostport: string)
    requires |hostport| == MAX_HOSTPORT
    ensures Name(server, hostport, 10_000_000) == Name(server, hostport, 100_000_000)
  {
    hide Name, Digits;
    TenToThe8();
    PowersOfTenCollide(8);
    NamesCollideExactly(server, hostport, 10_000_000, 100_000_000);
  }

  lemma TenToThe8()
    ensures Pow(10, 7) == 10_000_000 && Pow(10, 8) == 100_000_000
  {
    TenToThe5();
    assert Pow(10, 6) == 1_000_000;
  }

  lemma {:induction false} PowGrows(j: nat, k: nat)
    requires j <= k
    ensures Pow(10, j) <= Pow(10, k)
    decreases k
  {
    if j < k { PowGrows(j, k - 1); }
  }

  // ---------------------------------------------------------------- the map

  class ConnectionMap {
    const server: string
    const hostport: string
    var nextConnId: nat
    var connections: map<string, nat>   // the connection filed under a name, by its number
    ghost var live: set<nat>            // numbers of the connections accepted and not removed

    ghost predicate Valid()
      reads this
    {
      && |hostport| <= MAX_HOSTPORT && nextConnId >= 1
      && (forall id <- live :: 1 <= id < nextConnId)
      && (nextConnId <= Pow(10, Room(hostport)) ==>
            (forall id <- live :: Name(server, hostport, id) in connections && connections[Name(server, hostport, id)] == id)
            && (forall name <- connections :: connections[name] in live && name == Name(server, hostport, connections[name])))
    }

    constructor (server: string, hostport: string)
      requires |hostport| <= MAX_HOSTPORT
      ensures Valid() && nextConnId == 1 && live == {} && this.server == server && this.hostport == hostport
    {
      this.server, this.hostport := server, hostport;
      nextConnId, connections, live := 1, map[], {};
    }

    method NewConnection() returns (id: nat)
      requires Valid()
      modifies this
      ensures Valid() && id == old(nextConnId) && nextConnId == id + 1 && live == old(live) + {id}
      ensures connections == old(connections)[Name(server, hostport, id) := id]
    {
      hide Name, Pow;
      id := nextConnId;
      var connName := Name(server, hostport, id);
      nextConnId := nextConnId + 1;
      if id < Pow(10, Room(hostport)) {
        forall other <- live
          ensures Name(server, hostport, other) != connName
        {
          NamesAreDistinctExactly(server, hostport, id);
        }
      }
      connections := connections[connName := id];
      live := live + {id};
    }

    /** `removeConnectionInLoop`: while no number has lost digits, exactly one entry, its own, is erased. */
    method RemoveConnectionInLoop(id: nat) returns (n: nat)
      requires Valid() && id in live
      modifies this
      ensures Valid() && nextConnId == old(nextConnId) && live == old(live) - {id}
      ensures connections == old(connections) - {Name(server, hostport, id)}
      ensures old(nextConnId) <= Pow(10, Room(hostport)) ==>
                n == 1 && Name(server, hostport, id) in old(connections) && old(connections)[Name(server, hostport, id)] == id
    {
      hide Name, Pow;
      var name := Name(server, hostport, id);
      n := if name in connections then 1 else 0;
      connections := connections - {name};
      live := live - {id};
    }
  }
}
