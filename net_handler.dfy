/**
  `NetHandler`, the multiplexer of named-pipe connections. A connection is
  opened only to a path that the allow-list accepts; it gets the key
  `net<n>` from a counter that only grows, and the key maps to the connection
  until `close` removes it.

  The environment plays the socket: it calls `OnConnected`, `OnData`,
  `OnClose` and `OnError` on the connection `Connect` returned. Every event is
  sent to the connection's `Sender` (the web contents that asked for it),
  whose log records what was sent, in order.
 */
module Net {
  import opened Text

  /** `\\?\pipe\symphony-`: the pipe names the shell supervisor hands out. */
  const AllowedPrefix := "\\\\?\\pipe\\symphony-"

  /** `[a-z0-9-]` */
  predicate IsPipeNameChar(c: char) {
    'a' <= c <= 'z' || '0' <= c <= '9' || c == '-'
  }

  function AllPipeNameChars(s: string): (r: bool)
    ensures r <==> forall i :: 0 <= i < |s| ==> IsPipeNameChar(s[i])
  {
    if s == [] then true
    else
      var rest := AllPipeNameChars(s[1..]);
      assert rest <==> forall i :: 1 <= i < |s| ==> IsPipeNameChar(s[i]) by {
        assert forall i :: 1 <= i < |s| ==> s[i] == s[1..][i - 1];
      }
      IsPipeNameChar(s[0]) && rest
  }

  /** The regular expression `^\\\\\?\\pipe\\symphony-[a-z0-9-]+$`. */
  function AllowList(path: string): (r: bool)
    ensures r <==>
      && |path| > |AllowedPrefix|
      && StartsWith(path, AllowedPrefix)
      && forall i :: |AllowedPrefix| <= i < |path| ==> IsPipeNameChar(path[i])
  {
    if |path| > |AllowedPrefix| && StartsWith(path, AllowedPrefix) then
      var rest := path[|AllowedPrefix|..];
      assert forall i :: |AllowedPrefix| <= i < |path| ==> path[i] == rest[i - |AllowedPrefix|];
      AllPipeNameChars(rest)
    else false
  }

  /** The key of the connection opened when the counter stood at `n`. */
  function KeyFor(n: nat): string {
    "net" + NatToString(n)
  }

  /** Keys from different counter values differ: a key is never handed out twice. */
  lemma KeyForInjective(m: nat, n: nat)
    requires KeyFor(m) == KeyFor(n)
    ensures m == n
  {
    assert KeyFor(m)[3..] == NatToString(m);
    assert KeyFor(n)[3..] == NatToString(n);
    NatToStringInjective(m, n);
  }

  /** The events forwarded to the web contents as `net-event`. */
  datatype NetEvent =
    | Connected(connectionKey: string)
    | Data(connectionKey: string, data: seq<bv8>)
    | Closed(connectionKey: string)
    | ConnectionFailed(connectionKey: string, message: string)

  datatype ConnectResult = Connection(key: string) | NotAllowed

  /** The web contents that receive a connection's events. */
  class Sender {
    var sent: seq<NetEvent>

    constructor()
      ensures sent == []
    {
      sent := [];
    }

    method Send(e: NetEvent)
      modifies this
      ensures sent == old(sent) + [e]
    {
      sent := sent + [e];
    }
  }

  /** A socket together with the state its callbacks share (`connectionSuccess`). */
  class Socket {
    const key: string
    const path: string
    const sender: Sender
    var connectionSuccess: bool
    var destroyed: bool
    /** The payloads written to the socket, in order. */
    var written: seq<seq<bv8>>

    constructor(key: string, path: string, sender: Sender)
      ensures this.key == key && this.path == path && this.sender == sender
      ensures !connectionSuccess && !destroyed && written == []
    {
      this.key := key;
      this.path := path;
      this.sender := sender;
      connectionSuccess := false;
      destroyed := false;
      written := [];
    }

    /** The connect callback: the only source of `connected`. */
    method OnConnected()
      modifies this, sender
      ensures connectionSuccess && destroyed == old(destroyed) && written == old(written)
      ensures sender.sent == old(sender.sent) + [Connected(key)]
    {
      connectionSuccess := true;
      sender.Send(Connected(key));
    }

    /** The `data` callback: the payload is forwarded unchanged. */
    method OnData(data: seq<bv8>)
      modifies sender
      ensures sender.sent == old(sender.sent) + [Data(key, data)]
    {
      sender.Send(Data(key, data));
    }

    /** The `close` callback: forwarded whether or not the key is still mapped. */
    method OnClose()
      modifies sender
      ensures sender.sent == old(sender.sent) + [Closed(key)]
    {
      sender.Send(Closed(key));
    }

    /** The `error` callback: reported only if the connection was never established. */
    method OnError(message: string)
      modifies sender
      ensures sender.sent == old(sender.sent) + if connectionSuccess then [] else [ConnectionFailed(key, message)]
    {
      if !connectionSuccess {
        sender.Send(ConnectionFailed(key, message));
      }
    }

    method Write(data: seq<bv8>)
      modifies this
      ensures written == old(written) + [data]
      ensures connectionSuccess == old(connectionSuccess) && destroyed == old(destroyed)
    {
      written := written + [data];
    }

    method Destroy()
      modifies this
      ensures destroyed
      ensures connectionSuccess == old(connectionSuccess) && written == old(written)
    {
      destroyed := true;
    }
  }

  class NetHandler {
    var connections: map<string, Socket>
    var identifier: nat

    /** Every mapped key is the key of its socket, handed out at a counter value below `identifier`. */
    ghost predicate Valid()
      reads this
    {
      forall k :: k in connections ==>
        connections[k].key == k && exists n :: 0 <= n < identifier && k == KeyFor(n)
    }

    constructor()
      ensures Valid() && connections == map[] && identifier == 0
    {
      connections := map[];
      identifier := 0;
    }

    /** Opens a connection to `path` for `sender`, or refuses a path the allow-list rejects. */
    method Connect(sender: Sender, path: string) returns (r: ConnectResult, socket: Socket?)
      requires Valid()
      modifies this
      ensures Valid()
      ensures !AllowList(path) ==>
        r == NotAllowed && socket == null && connections == old(connections) && identifier == old(identifier)
      ensures AllowList(path) ==>
        && r == Connection(KeyFor(old(identifier)))
        && r.key !in old(connections)
        && identifier == old(identifier) + 1
        && socket != null && fresh(socket)
        && socket.key == r.key && socket.path == path && socket.sender == sender
        && !socket.connectionSuccess && !socket.destroyed && socket.written == []
        && connections == old(connections)[r.key := socket]
    {
      if !AllowList(path) {
        return NotAllowed, null;
      }
      var key := KeyFor(identifier);
      assert key !in connections by {
        if key in connections {
          var n :| 0 <= n < identifier && key == KeyFor(n);
          KeyForInjective(n, identifier);
        }
      }
      identifier := identifier + 1;
      socket := new Socket(key, path, sender);
      connections := connections[key := socket];
      r := Connection(key);
    }

    /** Writes to the connection under `key`; does nothing if there is none. */
    method Write(key: string, data: seq<bv8>)
      modifies if key in connections then {connections[key]} else {}
      ensures key in connections ==> connections[key].written == old(connections[key].written) + [data]
      ensures key in connections ==>
        && connections[key].connectionSuccess == old(connections[key].connectionSuccess)
        && connections[key].destroyed == old(connections[key].destroyed)
    {
      if key in connections {
        connections[key].Write(data);
      }
    }

    /** Destroys the connection under `key`, if any, and forgets the key. */
    method Close(key: string)
      requires Valid()
      modifies this, if key in connections then {connections[key]} else {}
      ensures Valid()
      ensures connections == old(connections) - {key} && identifier == old(identifier)
      ensures key in old(connections) ==> old(connections[key]).destroyed
      ensures key in old(connections) ==>
        && old(connections[key]).connectionSuccess == old(connections[key].connectionSuccess)
        && old(connections[key]).written == old(connections[key].written)
    {
      if key in connections {
        connections[key].Destroy();
      }
      connections := connections - {key};
    }
  }
}
