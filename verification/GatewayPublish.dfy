/** What one published event puts on the wire. */
module GatewayPublish {
  import opened Common
  import opened GatewayModel

  /** The four room-name families never collide and each is injective. */
  lemma RoomNames(x: string, y: string)
    ensures UserRoom(x) == UserRoom(y) ==> x == y
    ensures OrgRoom(x) == OrgRoom(y) ==> x == y
    ensures TicketRoom(x) == TicketRoom(y) ==> x == y
    ensures UserRoom(x) != TicketRoom(y) && UserRoom(x) != OrgRoom(y) && OrgRoom(x) != TicketRoom(y)
    ensures SUPER_ADMIN_ROOM !in {UserRoom(x), OrgRoom(x), TicketRoom(x)}
  {
    assert UserRoom(x)[5..] == x && UserRoom(y)[5..] == y;
    assert OrgRoom(x)[4..] == x && OrgRoom(y)[4..] == y;
    assert TicketRoom(x)[7..] == x && TicketRoom(y)[7..] == y;
    assert UserRoom(x)[0] == 'u' && OrgRoom(x)[0] == 'o' && OrgRoom(y)[0] == 'o' && TicketRoom(x)[0] == 't' && TicketRoom(y)[0] == 't';
  }

  /** The rooms an event concerns, as a set: its ticket, the super admins, and one per user named in
      a recipient field, however often and in whichever field. */
  ghost function Concerned(data: Option<map<string, JsonValue>>): set<string> {
    var id := TicketIdOf(data);
    if id.None? then {}
    else
      var users := set f | f in RECIPIENT_FIELDS && Names(data.value, f) :: data.value[f].s;
      {TicketRoom(id.value), SUPER_ADMIN_ROOM} + set u | u in users :: UserRoom(u)
  }

  predicate Names(data: map<string, JsonValue>, field: string) {
    field in data && data[field].Str? && data[field].s != ""
  }

  predicate Distinct<T(==)>(s: seq<T>) {
    forall i, j :: 0 <= i < j < |s| ==> s[i] != s[j]
  }

  lemma {:induction false} RecipientsAre(data: map<string, JsonValue>, fields: seq<string>)
    ensures Distinct(Recipients(data, fields))
    ensures forall u :: u in Recipients(data, fields) <==> exists f :: f in fields && Names(data, f) && data[f].s == u
  {
    if fields != [] {
      var init, last := fields[..|fields| - 1], fields[|fields| - 1];
      RecipientsAre(data, init);
      assert forall f :: f in fields <==> f in init || f == last;
    }
  }

  lemma TargetRoomsDiffer(data: Option<map<string, JsonValue>>)
    ensures Distinct(TargetRooms(data))
  {
    if TicketIdOf(data).Some? {
      var users := Recipients(data.value, RECIPIENT_FIELDS);
      var rooms := TargetRooms(data);
      RecipientsAre(data.value, RECIPIENT_FIELDS);
      hide Recipients, UserRoom, TicketRoom;
      forall i, j | 0 <= i < j < |rooms|
        ensures rooms[i] != rooms[j]
      {
        if j >= 2 { RoomNames(users[j - 2], TicketIdOf(data).value); }
        if i >= 2 { RoomNames(users[i - 2], users[j - 2]); }
        RoomNames(TicketIdOf(data).value, "");
      }
    }
  }

  lemma TargetRoomsAre(data: Option<map<string, JsonValue>>)
    ensures Distinct(TargetRooms(data))
    ensures (set r | r in TargetRooms(data)) == Concerned(data)
  {
    TargetRoomsDiffer(data);
    if TicketIdOf(data).Some? {
      hide Distinct, UserRoom, TicketRoom, Recipients;
      var fields := RECIPIENT_FIELDS;
      var users := Recipients(data.value, fields);
      var rooms := TargetRooms(data);
      RecipientsAre(data.value, fields);
      forall r
        ensures r in rooms <==> r in Concerned(data)
      {
        if r in rooms && r !in rooms[..2] {
          var i :| 0 <= i < |rooms| && rooms[i] == r;
          assert users[i - 2] in users;
        }
        if r in Concerned(data) && r !in rooms[..2] {
          var f :| f in fields && Names(data.value, f) && r == UserRoom(data.value[f].s);
          assert data.value[f].s in users;
          var i :| 0 <= i < |users| && users[i] == data.value[f].s;
          assert rooms[i + 2] == r;
        }
      }
    }
  }

  /** The copies one socket gets: one for each room of the list it is in. */
  ghost function Copies(c: Core, rooms: seq<string>, ws: Socket, frame: Frame): seq<Parcel> {
    if rooms == [] then []
    else
      var before, last := Copies(c, rooms[..|rooms| - 1], ws, frame), rooms[|rooms| - 1];
      if InRoom(c, last, ws) then before + [Parcel(Some(last), frame)] else before
  }

  lemma {:induction false} CopiesAre(c: Core, rooms: seq<string>, ws: Socket, frame: Frame)
    requires Distinct(rooms)
    ensures |Copies(c, rooms, ws, frame)| == |set r | r in rooms && InRoom(c, r, ws)|
    ensures forall p :: p in Copies(c, rooms, ws, frame) ==> p.frame == frame && p.room.Some? && p.room.value in rooms && InRoom(c, p.room.value, ws)
  {
    if rooms != [] {
      var init, last := rooms[..|rooms| - 1], rooms[|rooms| - 1];
      CopiesAre(c, init, ws, frame);
      var before := set r | r in init && InRoom(c, r, ws);
      assert last !in init;
      assert rooms == init + [last];
      hide InRoom;
      var now := set r | r in rooms && InRoom(c, r, ws);
      assert InRoom(c, last, ws) ==> now == before + {last};
      assert !InRoom(c, last, ws) ==> now == before;
    }
  }

  lemma {:induction false} BroadcastAllIs(c: Core, rooms: seq<string>, frame: Frame)
    ensures var d := BroadcastAll(c, rooms, frame);
      && d.rooms == c.rooms && d.registered == c.registered && d.conns.Keys == c.conns.Keys
      && forall ws :: ws in c.conns ==>
           d.conns[ws] == c.conns[ws].(outbox := c.conns[ws].outbox + if c.conns[ws].ready.Open? then Copies(c, rooms, ws, frame) else [])
  {
    if rooms != [] {
      var init, last := rooms[..|rooms| - 1], rooms[|rooms| - 1];
      BroadcastAllIs(c, init, frame);
      var before, d := BroadcastAll(c, init, frame), BroadcastAll(c, rooms, frame);
      forall ws | ws in c.conns
        ensures d.conns[ws] == c.conns[ws].(outbox := c.conns[ws].outbox + if c.conns[ws].ready.Open? then Copies(c, rooms, ws, frame) else [])
      {
        assert InRoom(before, last, ws) == InRoom(c, last, ws);
        hide InRoom;
        var copies := Copies(c, init, ws, frame);
        assert c.conns[ws].outbox + copies + [Parcel(Some(last), frame)] == c.conns[ws].outbox + (copies + [Parcel(Some(last), frame)]);
      }
    }
  }

  /** Publishing leaves the index alone, and a socket gets exactly as many copies of the event as
      there are rooms of `Concerned` it is in if it is OPEN, and none otherwise. */
  lemma PublishIsExact(c: Core, eventType: string, data: Option<map<string, JsonValue>>, ws: Socket)
    requires ws in c.conns
    ensures var d := OnPublish(c, eventType, data);
      && d.rooms == c.rooms && d.registered == c.registered && d.conns.Keys == c.conns.Keys
      && (TicketIdOf(data).None? ==> d == c)
      && c.conns[ws].outbox <= d.conns[ws].outbox
      && d.conns[ws] == c.conns[ws].(outbox := d.conns[ws].outbox)
      && var sent := d.conns[ws].outbox[|c.conns[ws].outbox|..];
         && |sent| == (if c.conns[ws].ready.Open? then |set r | r in Concerned(data) && InRoom(c, r, ws)| else 0)
         && forall p :: p in sent ==>
              p.frame == Domain(eventType, data.value) && p.room.Some? && p.room.value in Concerned(data) && InRoom(c, p.room.value, ws)
  {
    if TicketIdOf(data).Some? {
      var rooms := TargetRooms(data);
      var frame := Domain(eventType, data.value);
      TargetRoomsAre(data);
      BroadcastAllIs(c, rooms, frame);
      CopiesAre(c, rooms, ws, frame);
      var d := OnPublish(c, eventType, data);
      assert (set r | r in rooms && InRoom(c, r, ws)) == set r | r in Concerned(data) && InRoom(c, r, ws);
      assert d.conns[ws].outbox[|c.conns[ws].outbox|..] == if c.conns[ws].ready.Open? then Copies(c, rooms, ws, frame) else [];
    } else {
      assert (set r | r in Concerned(data) && InRoom(c, r, ws)) == {};
    }
  }
}
