/** The team-change packets. A client sends its team; the server relays it as a player's
    id, username and team to the other clients, and answers the sender with the team
    alone. The packet itself is modelled as a queue of typed values: writes append at
    the end, reads take from a cursor, and a read of the wrong kind or past the end fails. */
module PlayerTeamUpdate {
  import opened Common

  /** C#'s `ushort`: an unsigned 16-bit value. */
  type ushort = x: int | 0 <= x < 0x1_0000

  /** One value written into a packet. */
  datatype Value = UShortValue(u: ushort) | StringValue(s: string) | ByteValue(b: byte)

  datatype Kind = UShortKind | StringKind | ByteKind

  function KindOf(v: Value): Kind
  {
    match v
    case UShortValue(_) => UShortKind
    case StringValue(_) => StringKind
    case ByteValue(_) => ByteKind
  }

  /** The cast `(byte) team`: the low eight bits of the enum's integer value. */
  function TeamByte(team: int): (b: byte)
    ensures 0 <= team < 256 ==> b == team
    ensures (b - team) % 256 == 0
  {
    team % 256
  }

  /** The number of leading values of `u` that have the kinds `kinds` asks for, in
      order: how many of a sequence of reads succeed before the first one fails. */
  function Matched(u: seq<Value>, kinds: seq<Kind>): (n: nat)
    ensures n <= |kinds| && n <= |u|
    ensures forall i :: 0 <= i < n ==> KindOf(u[i]) == kinds[i]
    ensures n < |kinds| ==> n == |u| || KindOf(u[n]) != kinds[n]
  {
    if kinds == [] || u == [] || KindOf(u[0]) != kinds[0] then 0
    else 1 + Matched(u[1..], kinds[1..])
  }

  /** The kinds the client variant reads, in order: Id, Username, Team. */
  const ClientKinds: seq<Kind> := [UShortKind, StringKind, ByteKind]

  /** The kinds the server variant reads: Team alone. */
  const ServerKinds: seq<Kind> := [ByteKind]

  /** The values the client variant writes. */
  function EncodeClient(id: ushort, username: string, team: int): (r: seq<Value>)
    ensures |r| == 3 && Matched(r, ClientKinds) == 3
  {
    [UShortValue(id), StringValue(username), ByteValue(TeamByte(team))]
  }

  /** The fields the client variant reads from the unread values `u`, and what is left
      unread; None when one of the three reads fails. */
  function DecodeClient(u: seq<Value>): (r: Option<(ushort, string, int, seq<Value>)>)
    ensures r.Some? <==> Matched(u, ClientKinds) == 3
    ensures r.Some? ==> u == EncodeClient(r.value.0, r.value.1, r.value.2) + r.value.3
  {
    if |u| >= 3 && u[0].UShortValue? && u[1].StringValue? && u[2].ByteValue? then
      Some((u[0].u, u[1].s, u[2].b, u[3..]))
    else
      None
  }

  /** The values the server variant writes. */
  function EncodeServer(team: int): (r: seq<Value>)
    ensures |r| == 1 && Matched(r, ServerKinds) == 1
  {
    [ByteValue(TeamByte(team))]
  }

  /** The team the server variant reads from the unread values `u`, and what is left
      unread; None when the read fails. */
  function DecodeServer(u: seq<Value>): (r: Option<(int, seq<Value>)>)
    ensures r.Some? <==> Matched(u, ServerKinds) == 1
    ensures r.Some? ==> u == EncodeServer(r.value.0) + r.value.1
  {
    if |u| >= 1 && u[0].ByteValue? then Some((u[0].b, u[1..])) else None
  }

  /** Reading back what the client variant wrote restores Id, Username and Team, for
      every team that fits in a byte, and leaves whatever followed unread. */
  lemma ClientRoundTrip(id: ushort, username: string, team: int, rest: seq<Value>)
    requires 0 <= team < 256
    ensures DecodeClient(EncodeClient(id, username, team) + rest) == Some((id, username, team, rest))
  {
    var u := EncodeClient(id, username, team) + rest;
    assert u[0] == UShortValue(id) && u[1] == StringValue(username) && u[2] == ByteValue(team);
    assert u[3..] == rest;
  }

  /** A team outside the byte range comes back as its low eight bits. */
  lemma ClientTeamTruncated(id: ushort, username: string, team: int)
    ensures DecodeClient(EncodeClient(id, username, team)) == Some((id, username, team % 256, []))
  {
    var u := EncodeClient(id, username, team);
    assert u[3..] == [];
  }

  /** Reading back what the server variant wrote restores Team, for every team that
      fits in a byte, and leaves whatever followed unread. */
  lemma ServerRoundTrip(team: int, rest: seq<Value>)
    requires 0 <= team < 256
    ensures DecodeServer(EncodeServer(team) + rest) == Some((team, rest))
  {
    var u := EncodeServer(team) + rest;
    assert u[1..] == rest;
  }

  /** A packet: the values written so far and the position of the next read. */
  class Packet {
    var values: seq<Value>
    var readPos: nat

    predicate Valid()
      reads this
    {
      readPos <= |values|
    }

    /** The values not read yet. */
    function Unread(): (r: seq<Value>)
      requires Valid()
      reads this
      ensures |r| == |values| - readPos
    {
      values[readPos..]
    }

    constructor ()
      ensures Valid() && values == [] && readPos == 0
    {
      values := [];
      readPos := 0;
    }

    method Write(v: Value)
      requires Valid()
      modifies this
      ensures Valid() && values == old(values) + [v] && readPos == old(readPos)
      ensures Unread() == old(Unread()) + [v]
    {
      values := values + [v];
    }

    /** Reads the next value if it has kind `k`; otherwise fails and reads nothing. */
    method Read(k: Kind) returns (r: Option<Value>)
      requires Valid()
      modifies this
      ensures Valid() && values == old(values)
      ensures r.Some? <==> Matched(old(Unread()), [k]) == 1
      ensures r.Some? ==> r.value == old(Unread())[0] && Unread() == old(Unread())[1..]
      ensures r.None? ==> readPos == old(readPos)
    {
      if readPos < |values| && KindOf(values[readPos]) == k {
        r := Some(values[readPos]);
        readPos := readPos + 1;
      } else {
        r := None;
      }
    }
  }

  /** The client variant: the player's id, username and team, sent reliably, with an
      older copy dropped when a newer one is queued. */
  class ClientPlayerTeamUpdate {
    var id: ushort
    var username: string
    var team: int
    var isReliable: bool
    var dropReliableDataIfNewerExists: bool

    constructor ()
      ensures isReliable && dropReliableDataIfNewerExists
      ensures id == 0 && username == "" && team == 0
    {
      id := 0;
      username := "";
      team := 0;
      isReliable := true;
      dropReliableDataIfNewerExists := true;
    }

    /** Writes Id, then Username, then Team cast to a byte. */
    method WriteData(packet: Packet)
      requires packet.Valid()
      modifies packet
      ensures packet.Valid() && packet.readPos == old(packet.readPos)
      ensures packet.values == old(packet.values) + EncodeClient(id, username, team)
    {
      packet.Write(UShortValue(id));
      packet.Write(StringValue(username));
      packet.Write(ByteValue(TeamByte(team)));
    }

    /** Reads Id, then Username, then Team. A failed read stops the sequence: the fields
        read before it keep their new values, the others their old ones. */
    method ReadData(packet: Packet) returns (ok: bool)
      requires packet.Valid()
      modifies this, packet
      ensures packet.Valid() && packet.values == old(packet.values)
      ensures isReliable == old(isReliable)
      ensures dropReliableDataIfNewerExists == old(dropReliableDataIfNewerExists)
      ensures ok <==> DecodeClient(old(packet.Unread())).Some?
      ensures ok ==> DecodeClient(old(packet.Unread())) == Some((id, username, team, packet.Unread()))
      ensures var n := Matched(old(packet.Unread()), ClientKinds);
        packet.Unread() == old(packet.Unread())[n..] &&
        id == (if n >= 1 then old(packet.Unread())[0].u else old(id)) &&
        username == (if n >= 2 then old(packet.Unread())[1].s else old(username)) &&
        team == (if n >= 3 then old(packet.Unread())[2].b else old(team))
    {
      ghost var u := packet.Unread();
      var v := packet.Read(UShortKind);
      if v.None? {
        return false;
      }
      id := v.value.u;
      v := packet.Read(StringKind);
      if v.None? {
        assert Matched(u, ClientKinds) == 1;
        return false;
      }
      username := v.value.s;
      v := packet.Read(ByteKind);
      if v.None? {
        assert Matched(u, ClientKinds) == 2;
        return false;
      }
      team := v.value.b;
      assert Matched(u, ClientKinds) == 3;
      return true;
    }
  }

  /** The server variant: the team alone, always reliable and always replacing an older
      queued copy. */
  class ServerPlayerTeamUpdate {
    var team: int

    constructor ()
      ensures team == 0
    {
      team := 0;
    }

    function IsReliable(): (r: bool)
      ensures r
    {
      true
    }

    function DropReliableDataIfNewerExists(): (r: bool)
      ensures r
    {
      true
    }

    /** Writes Team cast to a byte. */
    method WriteData(packet: Packet)
      requires packet.Valid()
      modifies packet
      ensures packet.Valid() && packet.readPos == old(packet.readPos)
      ensures packet.values == old(packet.values) + EncodeServer(team)
    {
      packet.Write(ByteValue(TeamByte(team)));
    }

    /** Reads Team; a failed read leaves it as it was. */
    method ReadData(packet: Packet) returns (ok: bool)
      requires packet.Valid()
      modifies this, packet
      ensures packet.Valid() && packet.values == old(packet.values)
      ensures ok <==> DecodeServer(old(packet.Unread())).Some?
      ensures ok ==> DecodeServer(old(packet.Unread())) == Some((team, packet.Unread()))
      ensures !ok ==> team == old(team) && packet.Unread() == old(packet.Unread())
    {
      var v := packet.Read(ByteKind);
      if v.None? {
        return false;
      }
      team := v.value.b;
      return true;
    }
  }

  /** Writing a client update into a fresh packet and reading it into another object
      restores all three fields when the team fits in a byte. */
  method ClientWriteThenRead(source: ClientPlayerTeamUpdate) returns (copy: ClientPlayerTeamUpdate)
    requires 0 <= source.team < 256
    ensures copy.id == source.id && copy.username == source.username && copy.team == source.team
    ensures copy.isReliable && copy.dropReliableDataIfNewerExists
  {
    var packet := new Packet();
    source.WriteData(packet);
    copy := new ClientPlayerTeamUpdate();
    ClientRoundTrip(source.id, source.username, source.team, []);
    assert packet.Unread() == EncodeClient(source.id, source.username, source.team) + [];
    var ok := copy.ReadData(packet);
  }

  /** The same for the server variant's team. */
  method ServerWriteThenRead(source: ServerPlayerTeamUpdate) returns (copy: ServerPlayerTeamUpdate)
    requires 0 <= source.team < 256
    ensures copy.team == source.team
  {
    var packet := new Packet();
    source.WriteData(packet);
    copy := new ServerPlayerTeamUpdate();
    ServerRoundTrip(source.team, []);
    assert packet.Unread() == EncodeServer(source.team) + [];
    var ok := copy.ReadData(packet);
  }
}
