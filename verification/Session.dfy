/** The session registry: joining with a token, removal, eviction of silent clients, and sending to one. */
module Session {
  import opened Bytes
  import opened Common
  import opened Wire

  const HEARTBEAT_TIMEOUT_US: int := 10_000_000

  /** A TCP connection: how often `RemoveClient` closed it, and the messages written to it. */
  class Connection {
    var closes: nat
    var written: seq<string>

    constructor ()
      ensures closes == 0 && written == []
    {
      closes, written := 0, [];
    }
  }

  class Client {
    const id: string
    const conn: Connection
    var lastHeartbeatUs: int
    var channelAssign: byte
    /** Whether the read loop has stored the connection's write function. */
    var writable: bool

    constructor (id: string, conn: Connection, nowUs: int)
      ensures this.id == id && this.conn == conn && lastHeartbeatUs == nowUs && channelAssign == STEREO_MIX && !writable
    {
      this.id, this.conn := id, conn;
      lastHeartbeatUs, channelAssign, writable := nowUs, STEREO_MIX, false;
    }

    predicate IsStale(nowUs: int)
      reads this
    {
      nowUs - lastHeartbeatUs > HEARTBEAT_TIMEOUT_US
    }

    /** The read loop calls this when it starts. */
    method SetWriteFunc()
      modifies this`writable
      ensures writable
    {
      writable := true;
    }

    method UpdateHeartbeat(nowUs: int)
      modifies this`lastHeartbeatUs
      ensures !IsStale(nowUs) && forall later :: IsStale(later) <==> later - nowUs > 10_000_000
    {
      lastHeartbeatUs := nowUs;
    }

    method SetChannel(channel: byte)
      modifies this`channelAssign
      ensures channelAssign == channel
    {
      channelAssign := channel;
    }

    /** Before the read loop has started, a message is dropped without an error. */
    method Send(msg: string, written: bool) returns (ok: bool)
      modifies conn`written
      ensures ok == (!writable || written)
      ensures conn.written == if writable && written then old(conn.written) + [msg] else old(conn.written)
    {
      if !writable {
        return true;
      }
      if written {
        conn.written := conn.written + [msg];
      }
      return written;
    }
  }

  class Registry {
    const token: string
    var clients: map<string, Client>

    /** Clients are filed under their ids and do not share connections. */
    ghost predicate Valid()
      reads this
    {
      && (forall id :: id in clients ==> clients[id].id == id)
      && forall a, b :: a in clients && b in clients && a != b ==> clients[a].conn != clients[b].conn
    }

    ghost function Connections(): set<Connection>
      reads this
    {
      set id | id in clients :: clients[id].conn
    }

    constructor (token: string)
      ensures Valid() && clients == map[] && this.token == token
    {
      this.token := token;
      clients := map[];
    }

    /** `clientID` is the random id drawn for the client. */
    method AddClient(token: string, clientID: string, conn: Connection, nowUs: int) returns (added: Option<Client>)
      requires Valid() && clientID !in clients && conn !in Connections()
      modifies this`clients
      ensures Valid() && added.Some? == (token == this.token)
      ensures added.Some? ==> fresh(added.value) && added.value.conn == conn && !added.value.IsStale(nowUs)
      ensures clients == if added.Some? then old(clients)[clientID := added.value] else old(clients)
    {
      if token != this.token {
        return None;
      }
      var client := new Client(clientID, conn, nowUs);
      clients := clients[clientID := client];
      return Some(client);
    }

    /** Whoever takes the client out of the map closes its connection; nobody else does. */
    method RemoveClient(clientID: string)
      requires Valid()
      modifies this`clients, (if clientID in clients then {clients[clientID].conn} else {})`closes
      ensures Valid() && clients == old(clients) - {clientID}
      ensures clientID in old(clients) ==> old(clients)[clientID].conn.closes == old(clients[clientID].conn.closes) + 1
    {
      if clientID !in clients {
        return;
      }
      var client := clients[clientID];
      clients := clients - {clientID};
      client.conn.closes := client.conn.closes + 1;
    }

    /** Removes and closes exactly the clients whose last heartbeat is too long ago. */
    method EvictStaleClients(nowUs: int) returns (stale: seq<string>)
      requires Valid()
      modifies this`clients, Connections()`closes
      ensures Valid() && forall i, j :: 0 <= i < j < |stale| ==> stale[i] != stale[j]
      ensures forall id :: id in stale <==> id in old(clients) && old(clients[id].IsStale(nowUs))
      ensures clients == old(clients) - (set id | id in stale)
      ensures forall id :: id in old(clients) ==>
        old(clients)[id].conn.closes == old(clients[id].conn.closes) + if id in stale then 1 else 0
    {
      stale := StaleClients(nowUs);
      RemoveAll(stale);
    }

    method StaleClients(nowUs: int) returns (stale: seq<string>)
      ensures forall i, j :: 0 <= i < j < |stale| ==> stale[i] != stale[j]
      ensures forall id :: id in stale <==> id in clients && clients[id].IsStale(nowUs)
    {
      stale := [];
      var ids := clients.Keys;
      while ids != {}
        invariant ids <= clients.Keys && forall i, j :: 0 <= i < j < |stale| ==> stale[i] != stale[j]
        invariant forall id :: id in stale <==> id in clients && id !in ids && clients[id].IsStale(nowUs)
      {
        var id :| id in ids;
        if clients[id].IsStale(nowUs) {
          stale := stale + [id];
        }
        ids := ids - {id};
      }
    }

    method RemoveAll(ids: seq<string>)
      requires Valid() && forall i, j :: 0 <= i < j < |ids| ==> ids[i] != ids[j]
      modifies this`clients, Connections()`closes
      ensures Valid() && clients == old(clients) - (set id | id in ids)
      ensures forall id :: id in old(clients) ==>
        old(clients)[id].conn.closes == old(clients[id].conn.closes) + if id in ids then 1 else 0
    {
      for i := 0 to |ids|
        invariant Valid() && clients == old(clients) - (set id | id in ids[..i])
        invariant forall id :: id in old(clients) ==>
          old(clients)[id].conn.closes == old(clients[id].conn.closes) + if id in ids[..i] then 1 else 0
      {
        assert ids[..i + 1] == ids[..i] + [ids[i]] && ids[i] !in ids[..i];
        RemoveClient(ids[i]);
      }
      assert ids[..|ids|] == ids;
    }
  }
}
