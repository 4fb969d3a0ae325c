/** The X11 atom table: a cache from atom names to the atoms interned on one display
    connection, and the sub-table of those atoms the window manager lists in the root
    window's `_NET_SUPPORTED` property (Root Window Properties section of the
    Extended Window Manager Hints). The X server is an oracle: `Interner` answers
    XInternAtom and `PropertyServer` answers successive XGetWindowProperty calls. */
module X11AtomTable {
  import opened Wrappers

  /** An X atom; `NoneAtom` is Xlib's `None`. */
  type Atom = nat
  const NoneAtom: Atom := 0

  /** A native X window id. */
  type XWindow = nat

  /** An opened `::Display *` connection (the pointer value, opaque here). */
  type DisplayRef = nat

  type AtomMap = map<string, Atom>

  /** XInternAtom(display, name, only_if_exists) on one connection. With
      `only_if_exists` set, an atom the server does not know comes back as `None`. */
  type Interner = (string, bool) -> Atom

  const NetSupported: string := "_NET_SUPPORTED"
  const NetWmState: string := "_NET_WM_STATE"

  /** The fixed list of atom names the toolkit interns. */
  const AtomNames: seq<string> := [
    "WM_PROTOCOLS",
    "WM_CLIENT_MACHINE",
    "WM_DELETE_WINDOW",
    "WM_STATE",
    "CLIPBOARD",
    "PRIMARY",
    "_NET_SUPPORTED",
    "_NET_SUPPORTING_WM_CHECK",
    "_NET_FRAME_EXTENTS",
    "_NET_REQUEST_FRAME_EXTENTS",
    "_NET_WM_FULL_PLACEMENT",
    "_NET_WM_FULLSCREEN_MONITORS",
    "_NET_WM_NAME",
    "_NET_WM_PID",
    "_NET_WM_PING",
    "_NET_WM_STATE",
    "_NET_WM_STATE_HIDDEN",
    "_NET_WM_STATE_FULLSCREEN",
    "_NET_WM_STATE_MAXIMIZED_HORZ",
    "_NET_WM_STATE_MAXIMIZED_VERT",
    "_NET_WM_STATE_MODAL",
    "_NET_WM_WINDOW_TYPE",
    "_NET_WM_WINDOW_TYPE_DESKTOP",
    "_NET_WM_WINDOW_TYPE_DOCK",
    "_NET_WM_WINDOW_TYPE_TOOLBAR",
    "_NET_WM_WINDOW_TYPE_MENU",
    "_NET_WM_WINDOW_TYPE_UTILITY",
    "_NET_WM_WINDOW_TYPE_SPLASH",
    "_NET_WM_WINDOW_TYPE_DIALOG",
    "_NET_WM_WINDOW_TYPE_DROPDOWN_MENU",
    "_NET_WM_WINDOW_TYPE_POPUP_MENU",
    "_NET_WM_WINDOW_TYPE_TOOLTIP",
    "_NET_WM_WINDOW_TYPE_NOTIFICATION",
    "_NET_WM_WINDOW_TYPE_COMBO",
    "_NET_WM_WINDOW_TYPE_DND",
    "_NET_WM_WINDOW_TYPE_NORMAL"
  ]

  // ---------------------------------------------------------------------------
  // Reading a window property (XGetWindowProperty and the re-read loop)
  // ---------------------------------------------------------------------------

  /** One answer of XGetWindowProperty: a status other than `Success`, or the type,
      format, data buffer (null or the items) and the count of bytes not delivered. */
  datatype PropertyReply =
    | ReplyError
    | Reply(actualType: Atom, actualFormat: nat, data: Option<seq<Atom>>, bytesRemaining: nat)

  /** The replies the server gives, in order, to successive reads of one property of
      one window. */
  type PropertyServer = (XWindow, Atom) -> seq<PropertyReply>

  /** What `get_property` hands back: the returned buffer (null = `None`) and the
      `actual_type`, `actual_format` and `item_count` out-parameters. */
  datatype PropertyRead = PropertyRead(data: Option<seq<Atom>>, itemCount: nat, actualType: Atom, actualFormat: nat)

  const FailedRead: PropertyRead := PropertyRead(None, 0, NoneAtom, 0)

  function ItemCount(data: Option<seq<Atom>>): nat {
    if data.Some? then |data.value| else 0
  }

  /** A reply that ends the read loop: a failure, or nothing left to read. */
  predicate Settled(r: PropertyReply) {
    r.ReplyError? || r.bytesRemaining == 0
  }

  /** The server eventually ends the loop (otherwise the source re-reads forever). */
  predicate Settles(replies: seq<PropertyReply>) {
    exists k :: 0 <= k < |replies| && Settled(replies[k])
  }

  /** The index of the reply that ends the loop. */
  function FirstSettled(replies: seq<PropertyReply>): (k: nat)
    requires Settles(replies)
    ensures k < |replies| && Settled(replies[k])
    ensures forall j :: 0 <= j < k ==> !Settled(replies[j])
  {
    if Settled(replies[0]) then 0
    else
      assert Settles(replies[1..]) by {
        var k :| 0 <= k < |replies| && Settled(replies[k]);
        assert k != 0 && Settled(replies[1..][k - 1]);
      }
      1 + FirstSettled(replies[1..])
  }

  /** The result `get_property` delivers for a reply stream. */
  function ReadProperty(replies: seq<PropertyReply>): (r: PropertyRead)
    requires Settles(replies)
    ensures replies[FirstSettled(replies)].ReplyError? ==> r == FailedRead
    ensures replies[FirstSettled(replies)].Reply? ==>
      var last := replies[FirstSettled(replies)];
      && r.data == last.data && r.actualType == last.actualType && r.actualFormat == last.actualFormat
    ensures r.itemCount == ItemCount(r.data)
    ensures r.data.None? ==> r.itemCount == 0
  {
    match replies[FirstSettled(replies)]
    case ReplyError => FailedRead
    case Reply(t, f, d, _) => PropertyRead(d, ItemCount(d), t, f)
  }

  /** `X11Atoms::get_property`: reads with a requested length of 0 first, then again
      with the requested length set to the byte count the server reported as
      remaining, until none remain. Any failed call ends it with a null buffer, no
      items, `None` type and format 0. `requests` lists the length of every call. */
  method GetProperty(server: PropertyServer, window: XWindow, property: Atom)
    returns (r: PropertyRead, requests: seq<nat>)
    requires Settles(server(window, property))
    ensures r == ReadProperty(server(window, property))
    ensures |requests| == FirstSettled(server(window, property)) + 1
    ensures requests[0] == 0
    ensures forall j :: 0 <= j < |requests| - 1 ==> requests[j + 1] == server(window, property)[j].bytesRemaining
    ensures server(window, property)[|requests| - 1].ReplyError? ==> r == FailedRead
    ensures r.itemCount == ItemCount(r.data)
  {
    var replies := server(window, property);
    ghost var k := FirstSettled(replies);
    var readBytes := 0;
    r := FailedRead;
    requests := [];
    var i := 0;
    while true
      invariant 0 <= i <= k
      invariant |requests| == i
      invariant readBytes == if i == 0 then 0 else replies[i - 1].bytesRemaining
      invariant forall j :: 0 <= j < i ==> requests[j] == if j == 0 then 0 else replies[j - 1].bytesRemaining
      decreases k - i
    {
      requests := requests + [readBytes];
      var reply := replies[i];
      if reply.ReplyError? {
        r := FailedRead;
        return;
      }
      readBytes := reply.bytesRemaining;
      if reply.bytesRemaining == 0 {
        r := PropertyRead(reply.data, ItemCount(reply.data), reply.actualType, reply.actualFormat);
        return;
      }
      i := i + 1;
    }
  }

  // ---------------------------------------------------------------------------
  // The table and its window-manager sub-table
  // ---------------------------------------------------------------------------

  /** Every listed name, interned with `only_if_exists` set. */
  function InternedAtoms(intern: Interner): (m: AtomMap)
    ensures m.Keys == set n | n in AtomNames
    ensures forall n :: n in m ==> m[n] == intern(n, true)
  {
    map n | n in AtomNames :: intern(n, true)
  }

  /** The entries of `m` whose atom is among `items`. */
  function SupportedEntries(m: AtomMap, items: seq<Atom>): (net: AtomMap)
    ensures forall n :: n in net <==> n in m && m[n] in items
    ensures forall n :: n in net ==> net[n] == m[n]
  {
    map n | n in m && m[n] in items :: m[n]
  }

  ghost predicate IsSubmap(small: AtomMap, big: AtomMap) {
    forall n :: n in small ==> n in big && small[n] == big[n]
  }

  /** A ClientMessage event as `modify_net_wm_state` fills it, with the destination
      and event mask of the XSendEvent call that carries it. */
  datatype ClientMessage = ClientMessage(
    window: XWindow, messageType: Atom, format: nat, l: seq<int>,
    toRootWindow: bool, propagate: bool, eventMask: int)

  const SubstructureNotifyMask: int := 0x80000
  const SubstructureRedirectMask: int := 0x100000

  /** The `_NET_WM_STATE` request of the Application Window Properties section of the
      Extended Window Manager Hints: sent to the root window with the substructure
      masks, addressed to the client window, format 32, `l[0]` the action, `l[1]` and
      `l[2]` the two properties, `l[3]` the source indication, `l[4]` unused (zero). */
  ghost predicate IsNetWmStateRequest(msg: ClientMessage, window: XWindow, netWmState: Atom,
                                      action: int, first: Atom, second: Atom, source: int)
  {
    && msg.toRootWindow && !msg.propagate
    && msg.eventMask == SubstructureNotifyMask + SubstructureRedirectMask
    && msg.window == window && msg.messageType == netWmState && msg.format == 32
    && |msg.l| == 5
    && msg.l[0] == action && msg.l[1] == first && msg.l[2] == second
    && msg.l[3] == source && msg.l[4] == 0
  }

  /** What `modify_net_wm_state` sends (if anything) and returns. */
  datatype SendResult = SendResult(sent: Option<ClientMessage>, ok: bool)

  class X11Atoms {
    var display: Option<DisplayRef>
    var screen: int
    /** `_map_`: name to interned atom. */
    var atomMap: AtomMap
    /** `_net_`: the entries of `_map_` the window manager supports. */
    var netMap: AtomMap

    /** The empty initializer: no display, screen -1, both maps empty. */
    constructor Empty()
      ensures display == None && screen == -1
      ensures atomMap == map[] && netMap == map[]
    {
      display := None;
      screen := -1;
      atomMap := map[];
      netMap := map[];
    }

    /** The display initializer: `clear()` then `populate()`. The supported sub-table
        always ends up a sub-map of the table, and is empty when the server has no
        `_NET_SUPPORTED` atom or its list cannot be read. */
    constructor (d: DisplayRef, scr: int, intern: Interner, server: PropertyServer, root: XWindow)
      requires intern(NetSupported, true) != NoneAtom ==> Settles(server(root, intern(NetSupported, true)))
      ensures display == Some(d) && screen == scr
      ensures atomMap == InternedAtoms(intern)
      ensures IsSubmap(netMap, atomMap)
      ensures intern(NetSupported, true) == NoneAtom ==> netMap == map[]
      ensures intern(NetSupported, true) != NoneAtom ==>
        var got := ReadProperty(server(root, intern(NetSupported, true)));
        netMap == if got.data.None? then map[] else SupportedEntries(atomMap, got.data.value)
    {
      display := Some(d);
      screen := scr;
      atomMap := map[];
      netMap := map[];
      new;
      Clear();
      Populate(intern, server, root);
    }

    /** `operator[]`: the stored atom of a name the caller has checked is present
        (the source asserts it). Looking up inserts nothing. */
    function Lookup(name: string): (a: Atom)
      reads this
      requires name in atomMap
      ensures a == atomMap[name]
    {
      atomMap[name]
    }

    /** `exists`: the name is in the table with an atom other than `None`. */
    function Exists(name: string): (b: bool)
      reads this
      ensures b <==> name in atomMap && atomMap[name] != NoneAtom
    {
      if name in atomMap then atomMap[name] != NoneAtom else false
    }

    /** `is_hint_supported`: the name is in the window manager's sub-table. */
    function IsHintSupported(name: string): (b: bool)
      reads this
      ensures b <==> name in netMap
      ensures b && IsSubmap(netMap, atomMap) ==> name in atomMap && netMap[name] == atomMap[name]
    {
      name in netMap
    }

    /** `get_atom`: interns `name` on this table's display and stores the atom under
        the name, replacing any earlier one. */
    method GetAtom(d: Option<DisplayRef>, name: string, onlyIfExists: bool, intern: Interner)
      returns (a: Atom)
      requires d == display
      modifies this`atomMap
      ensures a == intern(name, onlyIfExists)
      ensures atomMap == old(atomMap)[name := a]
    {
      a := intern(name, onlyIfExists);
      atomMap := atomMap[name := a];
    }

    /** `clear`: empties both maps. */
    method Clear()
      modifies this`atomMap, this`netMap
      ensures atomMap == map[] && netMap == map[]
    {
      netMap := map[];
      atomMap := map[];
    }

    /** `populate`: interns every listed name (overwriting), then, if
        `_NET_SUPPORTED` exists and the root window's list of it is readable, adds to
        the sub-table every table entry whose atom is in that list. */
    method Populate(intern: Interner, server: PropertyServer, root: XWindow)
      requires intern(NetSupported, true) != NoneAtom ==> Settles(server(root, intern(NetSupported, true)))
      modifies this`atomMap, this`netMap
      ensures atomMap == old(atomMap) + InternedAtoms(intern)
      ensures intern(NetSupported, true) == NoneAtom ==> netMap == old(netMap)
      ensures intern(NetSupported, true) != NoneAtom ==>
        var got := ReadProperty(server(root, intern(NetSupported, true)));
        netMap == if got.data.None? then old(netMap) else old(netMap) + SupportedEntries(atomMap, got.data.value)
    {
      InternListed(AtomNames, intern);
      NetSupportedListed();
      var netSupported := Lookup(NetSupported);
      if netSupported == NoneAtom {
        return;
      }
      var got, requests := GetProperty(server, root, netSupported);
      if got.data.None? {
        return;
      }
      AddSupported(got.data.value);
    }

    /** The first loop of `populate`, over the name list `names` (`AtomNames`). */
    method InternListed(names: seq<string>, intern: Interner)
      modifies this`atomMap
      ensures atomMap == old(atomMap) + map n | n in names :: intern(n, true)
    {
      var i := 0;
      while i < |names|
        invariant 0 <= i <= |names|
        invariant atomMap == old(atomMap) + map n | n in names[..i] :: intern(n, true)
      {
        atomMap := atomMap[names[i] := intern(names[i], true)];
        assert names[..i + 1] == names[..i] + [names[i]];
        i := i + 1;
      }
      assert names[..i] == names;
    }

    /** The second loop of `populate`: every table entry whose atom is among `items`
        is copied into the sub-table. */
    method AddSupported(items: seq<Atom>)
      modifies this`netMap
      ensures netMap == old(netMap) + SupportedEntries(atomMap, items)
    {
      var pending := atomMap.Keys;
      while pending != {}
        invariant pending <= atomMap.Keys
        invariant netMap == old(netMap) + map n | n in atomMap.Keys - pending && atomMap[n] in items :: atomMap[n]
        decreases pending
      {
        var n :| n in pending;
        if atomMap[n] in items {
          netMap := netMap[n := atomMap[n]];
        }
        pending := pending - {n};
      }
    }

    /** `_NET_SUPPORTED` is one of the listed names. */
    lemma NetSupportedListed()
      ensures NetSupported in AtomNames
    {
      assert AtomNames[6] == NetSupported;
    }

    /** The inline `get_property(window, name, item_count)`: the static read of the
        property whose atom is stored under `name` (the name must be present). */
    method GetNamedProperty(server: PropertyServer, window: XWindow, name: string) returns (r: PropertyRead)
      requires name in atomMap
      requires Settles(server(window, atomMap[name]))
      ensures r == ReadProperty(server(window, atomMap[name]))
    {
      var requests;
      r, requests := GetProperty(server, window, Lookup(name));
    }

    /** The `_NET_WM_STATE` list of `window` could be read. */
    predicate WmStateReadable(server: PropertyServer, window: XWindow)
      reads this
    {
      && NetWmState in atomMap && atomMap[NetWmState] != NoneAtom
      && Settles(server(window, atomMap[NetWmState]))
      && ReadProperty(server(window, atomMap[NetWmState])).data.Some?
    }

    /** `check_net_wm_state`: empty when `_NET_WM_STATE` is `None` or its list cannot
        be read; otherwise one flag per requested name, set exactly when the name's
        atom is not `None` and is in the window's state list. */
    method CheckNetWmState(server: PropertyServer, window: XWindow, stateAtoms: seq<string>)
      returns (states: seq<bool>)
      requires NetWmState in atomMap
      requires atomMap[NetWmState] != NoneAtom ==> Settles(server(window, atomMap[NetWmState]))
      requires WmStateReadable(server, window) ==> forall i :: 0 <= i < |stateAtoms| ==> stateAtoms[i] in atomMap
      ensures !WmStateReadable(server, window) ==> states == []
      ensures WmStateReadable(server, window) ==>
        var items := ReadProperty(server(window, atomMap[NetWmState])).data.value;
        && |states| == |stateAtoms|
        && forall i :: 0 <= i < |states| ==>
             (states[i] <==> atomMap[stateAtoms[i]] != NoneAtom && atomMap[stateAtoms[i]] in items)
    {
      var netWmState := Lookup(NetWmState);
      if netWmState == NoneAtom {
        return [];
      }
      var got, requests := GetProperty(server, window, netWmState);
      if got.data.None? {
        return [];
      }
      var items := got.data.value;
      states := seq(|stateAtoms|, _ => false);
      for i := 0 to |stateAtoms|
        invariant |states| == |stateAtoms|
        invariant forall j :: 0 <= j < i ==>
          (states[j] <==> atomMap[stateAtoms[j]] != NoneAtom && atomMap[stateAtoms[j]] in items)
        invariant forall j :: i <= j < |states| ==> !states[j]
      {
        var state := Lookup(stateAtoms[i]);
        if state == NoneAtom {
          continue;
        }
        states := states[i := state in items];
      }
    }

    /** `modify_net_wm_state`: nothing is sent and the result is false when
        `_NET_WM_STATE` is `None`; otherwise the `_NET_WM_STATE` client message for the
        two named states is sent, and the result is whether XSendEvent returned a
        nonzero status. */
    function ModifyNetWmState(window: XWindow, action: int, atom1: string, atom2: string, sendStatus: int)
      : (r: SendResult)
      reads this
      requires NetWmState in atomMap
      requires atomMap[NetWmState] != NoneAtom ==> atom1 in atomMap && atom2 in atomMap
      ensures r.sent.None? <==> atomMap[NetWmState] == NoneAtom
      ensures r.ok <==> r.sent.Some? && sendStatus != 0
      ensures r.sent.Some? ==>
        IsNetWmStateRequest(r.sent.value, window, atomMap[NetWmState], action, atomMap[atom1], atomMap[atom2], 0)
    {
      var netWmState := Lookup(NetWmState);
      if netWmState == NoneAtom then SendResult(None, false)
      else
        var msg := ClientMessage(window, netWmState, 32, [action, Lookup(atom1), Lookup(atom2), 0, 0],
                                 true, false, SubstructureNotifyMask + SubstructureRedirectMask);
        SendResult(Some(msg), sendStatus != 0)
    }
  }

  /** After the display initializer every listed name is in the table, and it exists
      exactly when the server knew the atom. */
  lemma PopulatedNames(t: X11Atoms, intern: Interner, name: string)
    requires t.atomMap == InternedAtoms(intern)
    requires name in AtomNames
    ensures name in t.atomMap
    ensures t.Exists(name) <==> intern(name, true) != NoneAtom
  {
  }

  /** For a table whose sub-table is what the display initializer builds from the
      window manager's list `items`, a name is a supported hint exactly when it is in
      the table and its atom is listed, and then the hint has the table's atom. */
  lemma SupportedHintIff(t: X11Atoms, items: seq<Atom>, name: string)
    requires t.netMap == SupportedEntries(t.atomMap, items)
    ensures t.IsHintSupported(name) <==> name in t.atomMap && t.atomMap[name] in items
    ensures t.IsHintSupported(name) ==> t.netMap[name] == t.atomMap[name]
  {
  }
}
