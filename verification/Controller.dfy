/** The capacity protocol of the controller (internal/driver/controller.go): create, expand and delete against a store
    of datarooms that others use too. The requests are those of the CSI specification v1.11. */
module Controller {
  import opened Base
  import opened Sizes

  type RoomId = nat

  /** reserved: the storage reservation in bytes; without one the owner's plan bounds the dataroom. */
  datatype Dataroom = Dataroom(id: RoomId, title: string, reserved: Option<nat>)

  const MIN_CAPACITY: nat := 20 * 0x4000_0000

  // ---------------------------------------------------------------- the store

  /** What others do to the store: the web application, the CLI, another controller. */
  datatype Other = Creates(title: string, reserved: Option<nat>) | Enlarges(id: RoomId, to: nat) | Removes(id: RoomId)

  /** How a call of the CLI ends: it applies; it fails without effect; it applies and its answer is lost. */
  datatype Ending = Applies | Fails | Lost

  datatype Quota = Quota(readOnly: bool, count: nat, limit: Option<nat>)

  datatype Interlude = Interlude(others: seq<Other>, ending: Ending, quota: Quota)

  function Find(rooms: seq<Dataroom>, id: RoomId): (r: Option<Dataroom>)
    ensures r.Some? ==> r.value in rooms && r.value.id == id
    ensures r.None? ==> forall i :: 0 <= i < |rooms| ==> rooms[i].id != id
  {
    if rooms == [] then None else if rooms[0].id == id then Some(rooms[0]) else Find(rooms[1..], id)
  }

  /** The first dataroom with a title. */
  function Titled(rooms: seq<Dataroom>, title: string): (r: Option<Dataroom>)
    ensures r.Some? ==> r.value in rooms && r.value.title == title
    ensures r.None? ==> forall i :: 0 <= i < |rooms| ==> rooms[i].title != title
  {
    if rooms == [] then None else if rooms[0].title == title then Some(rooms[0]) else Titled(rooms[1..], title)
  }

  function WithReservation(rooms: seq<Dataroom>, id: RoomId, capacity: nat): (r: seq<Dataroom>)
    ensures |r| == |rooms|
    ensures forall i :: 0 <= i < |rooms| ==> r[i] == if rooms[i].id == id then rooms[i].(reserved := Some(capacity)) else rooms[i]
  {
    seq(|rooms|, i requires 0 <= i < |rooms| => if rooms[i].id == id then rooms[i].(reserved := Some(capacity)) else rooms[i])
  }

  function Without(rooms: seq<Dataroom>, id: RoomId): seq<Dataroom> {
    if rooms == [] then [] else (if rooms[0].id == id then [] else [rooms[0]]) + Without(rooms[1..], id)
  }

  predicate Covers(reserved: Option<nat>, capacity: nat) { reserved.Some? && reserved.value >= capacity }

  /** The API refuses to shrink a reservation, and one below the floor. */
  predicate Acceptable(rooms: seq<Dataroom>, id: RoomId, capacity: nat) {
    capacity >= MIN_CAPACITY && Find(rooms, id).Some? &&
    (Find(rooms, id).value.reserved.Some? ==> capacity >= Find(rooms, id).value.reserved.value)
  }

  /** Each dataroom that was there before is gone, or has its title and no smaller reservation. */
  ghost predicate NoneShrank(old_: seq<Dataroom>, new_: seq<Dataroom>, next: RoomId) {
    forall id: RoomId :: id < next && Find(new_, id).Some? ==>
      Find(old_, id).Some? && Grew(Find(old_, id).value, Find(new_, id).value)
  }

  predicate Grew(a: Dataroom, b: Dataroom) {
    b.title == a.title && (a.reserved.Some? ==> b.reserved.Some? && b.reserved.value >= a.reserved.value)
  }

  lemma FindAppended(rooms: seq<Dataroom>, r: Dataroom, id: RoomId)
    ensures Find(rooms + [r], id) == if Find(rooms, id).Some? then Find(rooms, id) else if r.id == id then Some(r) else None
  {
    if rooms != [] {
      assert (rooms + [r])[1..] == rooms[1..] + [r];
      FindAppended(rooms[1..], r, id);
    }
  }

  lemma TitledAppended(rooms: seq<Dataroom>, r: Dataroom, title: string)
    ensures Titled(rooms + [r], title) ==
              if Titled(rooms, title).Some? then Titled(rooms, title) else if r.title == title then Some(r) else None
  {
    if rooms != [] {
      assert (rooms + [r])[1..] == rooms[1..] + [r];
      TitledAppended(rooms[1..], r, title);
    }
  }

  lemma FindReserved(rooms: seq<Dataroom>, id: RoomId, capacity: nat, x: RoomId)
    ensures Find(WithReservation(rooms, id, capacity), x) ==
              if x == id && Find(rooms, x).Some? then Some(Find(rooms, x).value.(reserved := Some(capacity))) else Find(rooms, x)
  {
    if rooms != [] {
      assert WithReservation(rooms, id, capacity)[1..] == WithReservation(rooms[1..], id, capacity);
      FindReserved(rooms[1..], id, capacity, x);
    }
  }

  lemma FindWithout(rooms: seq<Dataroom>, id: RoomId, x: RoomId)
    ensures Find(Without(rooms, id), x) == if x == id then None else Find(rooms, x)
  {
    if rooms != [] {
      FindWithout(rooms[1..], id, x);
      var rest := Without(rooms[1..], id);
      assert ([rooms[0]] + rest)[1..] == rest;
      assert [] + rest == rest;
    }
  }

  lemma FindIs(rooms: seq<Dataroom>, i: nat)
    requires i < |rooms| && Distinct(rooms)
    ensures Find(rooms, rooms[i].id) == Some(rooms[i])
  {
    if i > 0 {
      assert rooms[0].id != rooms[i].id;
      FindIs(rooms[1..], i - 1);
    }
  }

  predicate Distinct(rooms: seq<Dataroom>) {
    forall i, j :: 0 <= i < j < |rooms| ==> rooms[i].id != rooms[j].id
  }

  predicate WellFormed(rooms: seq<Dataroom>, next: RoomId) {
    && Distinct(rooms)
    && forall i :: 0 <= i < |rooms| ==> rooms[i].id < next && (rooms[i].reserved.Some? ==> rooms[i].reserved.value >= MIN_CAPACITY)
  }

  lemma WithoutHas(rooms: seq<Dataroom>, id: RoomId, r: Dataroom)
    ensures r in Without(rooms, id) <==> r in rooms && r.id != id
  {
    if rooms != [] {
      WithoutHas(rooms[1..], id, r);
      assert r in rooms <==> r == rooms[0] || r in rooms[1..];
    }
  }

  lemma WithoutWellFormed(rooms: seq<Dataroom>, id: RoomId, next: RoomId)
    requires WellFormed(rooms, next)
    ensures WellFormed(Without(rooms, id), next)
  {
    if rooms != [] {
      assert WellFormed(rooms[1..], next);
      WithoutWellFormed(rooms[1..], id, next);
      var rest := Without(rooms[1..], id);
      forall j | 0 <= j < |rest| ensures rest[j].id != rooms[0].id {
        WithoutHas(rooms[1..], id, rest[j]);
        var k :| 0 <= k < |rooms[1..]| && rooms[1..][k] == rest[j];
        assert rooms[k + 1] == rest[j];
      }
    }
  }

  // ---------------------------------------------------------------- the moves of others

  /** The store at a moment: the datarooms, the next ID. */
  datatype Shop = Shop(rooms: seq<Dataroom>, next: RoomId)

  function WithRoom(s: Shop, title: string, reserved: Option<nat>): Shop {
    Shop(s.rooms + [Dataroom(s.next, title, reserved)], s.next + 1)
  }

  /** A move of somebody else, within the API's own rules. */
  function Moved(s: Shop, o: Other): Shop {
    match o
    case Creates(title, reserved) =>
      if reserved.None? || reserved.value >= MIN_CAPACITY then WithRoom(s, title, reserved) else s
    case Enlarges(id, to) => if Acceptable(s.rooms, id, to) then s.(rooms := WithReservation(s.rooms, id, to)) else s
    case Removes(id) => s.(rooms := Without(s.rooms, id))
  }

  function Others(s: Shop, moves: seq<Other>): Shop {
    if moves == [] then s else Moved(Others(s, moves[..|moves| - 1]), moves[|moves| - 1])
  }

  /** The interlude before the k-th call from now: a drained script stays calm. */
  function Turn(script: seq<Interlude>, calm: Quota, k: nat): Interlude {
    if k < |script| then script[k] else Interlude([], Applies, calm)
  }

  /** The store as the k-th call from now finds it, when the calls before leave it alone. */
  function Met(s: Shop, script: seq<Interlude>, calm: Quota, k: nat): Shop {
    Others(if k == 0 then s else Met(s, script, calm, k - 1), Turn(script, calm, k).others)
  }

  /** Nobody else uses the store, whatever becomes of the calls. */
  ghost predicate Alone(script: seq<Interlude>) { forall i :: 0 <= i < |script| ==> script[i].others == [] }

  lemma {:induction false} MetAlone(s: Shop, script: seq<Interlude>, calm: Quota, k: nat)
    requires Alone(script)
    ensures Met(s, script, calm, k) == s
  {
    if k > 0 {
      MetAlone(s, script, calm, k - 1);
    }
  }

  /** One call later. */
  lemma {:induction false} MetLater(s: Shop, script: seq<Interlude>, calm: Quota, k: nat)
    ensures Met(s, script, calm, k + 1) == Met(Met(s, script, calm, 0), Later(script), calm, k)
  {
    if k > 0 {
      MetLater(s, script, calm, k - 1);
    }
  }

  function Later(script: seq<Interlude>): seq<Interlude> { if script == [] then [] else script[1..] }

  /** A `set` that reached the API: what was asked, what was reserved. */
  datatype Ask = Ask(id: RoomId, capacity: nat, current: Option<nat>)

  datatype SetResult = SetDone | SetNotFound | SetRefused | SetFailed

  class Store {
    var rooms: seq<Dataroom>
    var next: RoomId
    var script: seq<Interlude>
    /** The quota once the script is drained. */
    const calm: Quota
    ghost var asked: seq<Ask>

    ghost predicate Valid()
      reads this
    {
      WellFormed(rooms, next)
    }

    function Now(): Shop
      reads this
    {
      Shop(rooms, next)
    }

    method Move(o: Other)
      requires Valid()
      modifies `rooms, `next
      ensures Valid() && old(next) <= next && NoneShrank(old(rooms), rooms, old(next)) && Now() == Moved(old(Now()), o)
    {
      match o
      case Creates(title, reserved) =>
        if reserved.None? || reserved.value >= MIN_CAPACITY {
          Append(title, reserved);
        }
      case Enlarges(id, to) =>
        if Acceptable(rooms, id, to) {
          Enlarge(id, to);
        }
      case Removes(id) => Drop(id);
    }

    method Append(title: string, reserved: Option<nat>)
      requires Valid() && (reserved.Some? ==> reserved.value >= MIN_CAPACITY)
      modifies `rooms, `next
      ensures Valid() && next == old(next) + 1 && rooms == old(rooms) + [Dataroom(old(next), title, reserved)]
      ensures NoneShrank(old(rooms), rooms, old(next))
    {
      var r := Dataroom(next, title, reserved);
      forall id: RoomId ensures Find(rooms + [r], id) == if Find(rooms, id).Some? then Find(rooms, id) else if r.id == id then Some(r) else None {
        FindAppended(rooms, r, id);
      }
      rooms, next := rooms + [r], next + 1;
    }

    method Enlarge(id: RoomId, to: nat)
      requires Valid() && Acceptable(rooms, id, to)
      modifies `rooms
      ensures Valid() && rooms == WithReservation(old(rooms), id, to) && NoneShrank(old(rooms), rooms, next)
      ensures Find(rooms, id) == Some(Find(old(rooms), id).value.(reserved := Some(to)))
    {
      forall x: RoomId ensures Find(WithReservation(rooms, id, to), x) ==
                       if x == id && Find(rooms, x).Some? then Some(Find(rooms, x).value.(reserved := Some(to))) else Find(rooms, x) {
        FindReserved(rooms, id, to, x);
      }
      rooms := WithReservation(rooms, id, to);
    }

    method Drop(id: RoomId)
      requires Valid()
      modifies `rooms
      ensures Valid() && rooms == Without(old(rooms), id) && NoneShrank(old(rooms), rooms, next)
      ensures Find(rooms, id).None?
    {
      WithoutWellFormed(rooms, id, next);
      forall x: RoomId ensures Find(Without(rooms, id), x) == if x == id then None else Find(rooms, x) {
        FindWithout(rooms, id, x);
      }
      rooms := Without(rooms, id);
    }

    method Await() returns (i: Interlude)
      requires Valid()
      modifies `rooms, `next, `script
      ensures Valid() && old(next) <= next && NoneShrank(old(rooms), rooms, old(next))
      ensures i == Turn(old(script), calm, 0) && script == Later(old(script)) && Now() == Others(old(Now()), i.others)
    {
      if script == [] {
        return Interlude([], Applies, calm);
      }
      i := script[0];
      script := script[1..];
      var k := 0;
      while k < |i.others|
        invariant k <= |i.others| && Valid() && old(next) <= next && NoneShrank(old(rooms), rooms, old(next))
        invariant script == Later(old(script)) && Now() == Others(old(Now()), i.others[..k])
      {
        assert i.others[..k + 1][..k] == i.others[..k];
        Move(i.others[k]);
        k := k + 1;
      }
      assert i.others[..k] == i.others;
    }

    /** dataroom ls. */
    method List() returns (ok: bool, items: seq<Dataroom>)
      requires Valid()
      modifies `rooms, `next, `script
      ensures Valid() && old(next) <= next && NoneShrank(old(rooms), rooms, old(next))
      ensures Now() == Met(old(Now()), old(script), calm, 0) && script == Later(old(script))
      ensures ok == Turn(old(script), calm, 0).ending.Applies? && items == rooms
    {
      var i := Await();
      ok, items := i.ending.Applies?, rooms;
    }

    /** user quota. */
    method ReadQuota() returns (ok: bool, q: Quota)
      requires Valid()
      modifies `rooms, `next, `script
      ensures Valid() && old(next) <= next && NoneShrank(old(rooms), rooms, old(next))
      ensures Now() == Met(old(Now()), old(script), calm, 0) && script == Later(old(script))
      ensures ok == Turn(old(script), calm, 0).ending.Applies? && q == Turn(old(script), calm, 0).quota
    {
      var i := Await();
      ok, q := i.ending.Applies?, i.quota;
    }

    /** dataroom create, with the reservation as text. */
    method Create(title: string, size: Option<string>) returns (ok: bool, id: RoomId)
      requires Valid() && (size.Some? ==> Bytes(size.value).Some? && Bytes(size.value).value >= MIN_CAPACITY)
      modifies `rooms, `next, `script
      ensures Valid() && old(next) <= next && NoneShrank(old(rooms), rooms, old(next))
      ensures ok ==> id >= old(next) && Find(rooms, id) == Some(Dataroom(id, title, if size.Some? then Bytes(size.value) else None))
      ensures script == Later(old(script))
      ensures var met, ending := Met(old(Now()), old(script), calm, 0), Turn(old(script), calm, 0).ending;
              && id == met.next && ok == ending.Applies?
              && Now() == if ending.Fails? then met
                          else WithRoom(met, title, if size.Some? then Bytes(size.value) else None)
    {
      var i := Await();
      ok, id := i.ending.Applies?, next;
      if !i.ending.Fails? {
        FindAppended(rooms, Dataroom(next, title, if size.Some? then Bytes(size.value) else None), next);
        Append(title, if size.Some? then Bytes(size.value) else None);
      }
    }

    /** dataroom set, with the reservation as text. */
    method Set(id: RoomId, size: string) returns (r: SetResult)
      requires Valid() && Bytes(size).Some?
      modifies `rooms, `next, `script, `asked
      ensures Valid() && old(next) <= next && NoneShrank(old(rooms), rooms, old(next))
      ensures r.SetDone? ==> Find(rooms, id).Some? && Find(rooms, id).value.reserved == Bytes(size)
      ensures script == Later(old(script))
      ensures var met, ending := Met(old(Now()), old(script), calm, 0), Turn(old(script), calm, 0).ending;
              var capacity, room := Bytes(size).value, Find(met.rooms, id);
              && asked == (if ending.Fails? || room.None? then old(asked) else old(asked) + [Ask(id, capacity, room.value.reserved)])
              && Now() == (if ending.Fails? || !Acceptable(met.rooms, id, capacity) then met
                           else met.(rooms := WithReservation(met.rooms, id, capacity)))
              && r == (if !ending.Applies? then SetFailed else if room.None? then SetNotFound
                       else if Acceptable(met.rooms, id, capacity) then SetDone else SetRefused)
    {
      var i := Await();
      var capacity := Bytes(size).value;
      r := SetFailed;
      if i.ending.Fails? {
        return;
      }
      if Find(rooms, id).None? {
        r := SetNotFound;
      } else {
        asked := asked + [Ask(id, capacity, Find(rooms, id).value.reserved)];
        r := SetRefused;
        if Acceptable(rooms, id, capacity) {
          Enlarge(id, capacity);
          r := SetDone;
        }
      }
      if i.ending.Lost? {
        r := SetFailed;
      }
    }

    /** dataroom rm: gone reports that there was none. */
    method Remove(id: RoomId) returns (ok: bool, gone: bool)
      requires Valid()
      modifies `rooms, `next, `script
      ensures Valid() && old(next) <= next && NoneShrank(old(rooms), rooms, old(next))
      ensures ok || gone ==> Find(rooms, id).None?
      ensures var met, ending := Met(old(Now()), old(script), calm, 0), Turn(old(script), calm, 0).ending;
              && Now() == (if ending.Fails? then met else met.(rooms := Without(met.rooms, id)))
              && gone == (ending.Applies? && Find(met.rooms, id).None?) && ok == (ending.Applies? && !gone)
    {
      var i := Await();
      if i.ending.Fails? {
        return false, false;
      }
      gone := Find(rooms, id).None?;
      Drop(id);
      ok := i.ending.Applies? && !gone;
      gone := i.ending.Applies? && gone;
    }
  }

  // ---------------------------------------------------------------- requests

  datatype Code = InvalidArgument | OutOfRange | AlreadyExists | ResourceExhausted | NotFound | CallFailed | Refused

  datatype Answer = Volume(id: RoomId, size: nat) | Error(code: Code)

  /** The outcome of reservedBytes: a reservation, 0 for none, or an error. */
  datatype Reserve = Reserve(bytes: nat) | BadRange(code: Code)

  function ReservedBytes(required: int, limit: int): Reserve {
    if required < 0 || limit < 0 then BadRange(InvalidArgument)
    else if limit > 0 && required > limit then BadRange(OutOfRange)
    else if required == 0 && limit == 0 then Reserve(0)
    else if limit > 0 && limit < MIN_CAPACITY then BadRange(OutOfRange)
    else Reserve(Max(required, MIN_CAPACITY))
  }

  /** The reservation is the smallest the API accepts that meets the range; there is an error exactly when the range
      is set and nothing meets it. */
  lemma ReservedBytesIs(required: int, limit: int)
    ensures var r := ReservedBytes(required, limit);
            if required == 0 && limit == 0 then r == Reserve(0)
            else
              match r
              case Reserve(n) => Meets(n, required, limit) && forall m: nat :: Meets(m, required, limit) ==> n <= m
              case BadRange(_) => forall m: nat :: Meets(m, required, limit) ==> required < 0 || limit < 0
  {
    if !(required == 0 && limit == 0) && ReservedBytes(required, limit).Reserve? {
      assert Meets(ReservedBytes(required, limit).bytes, required, limit);
    }
  }

  predicate Meets(n: nat, required: int, limit: int) { n >= required && n >= MIN_CAPACITY && (limit > 0 ==> n <= limit) }

  /** Whether a dataroom reused for a volume is in the range; without reservation there is nothing to compare. */
  predicate Compatible(r: Dataroom, capacity: nat, limit: int) {
    r.reserved.Some? ==> r.reserved.value >= capacity && (limit > 0 ==> r.reserved.value <= limit)
  }

  function SizeReported(r: Dataroom, capacity: nat): nat { if r.reserved.Some? then r.reserved.value else capacity }

  predicate HasRoom(q: Quota) { q.limit.None? || q.count < q.limit.value }

  /** The answer for a dataroom that has the name already. */
  function Reused(r: Dataroom, capacity: nat, limit: int): Answer {
    if Compatible(r, capacity, limit) then Volume(r.id, SizeReported(r, capacity)) else Error(AlreadyExists)
  }

  function Reservation(capacity: nat): Option<nat> { if capacity > 0 then Some(capacity) else None }

  /** What CreateVolume does with a request in order, on what its three calls meet: the listing, the quota, the create. */
  function Created(s: Shop, script: seq<Interlude>, calm: Quota, name: string, capacity: nat, limit: int): (Answer, Shop) {
    var listed, allowed, last := Met(s, script, calm, 0), Met(s, script, calm, 1), Met(s, script, calm, 2);
    var quota, ending := Turn(script, calm, 1).quota, Turn(script, calm, 2).ending;
    if !Turn(script, calm, 0).ending.Applies? then (Error(CallFailed), listed)
    else if Titled(listed.rooms, name).Some? then (Reused(Titled(listed.rooms, name).value, capacity, limit), listed)
    else if !Turn(script, calm, 1).ending.Applies? then (Error(CallFailed), allowed)
    else if quota.readOnly || !HasRoom(quota) then (Error(ResourceExhausted), allowed)
    else if ending.Fails? then (Error(CallFailed), last)
    else (if ending.Applies? then Volume(last.next, capacity) else Error(CallFailed), WithRoom(last, name, Reservation(capacity)))
  }

  /** The volume of a name, when nobody else uses the store: the dataroom that has it, or the next one. */
  function TheVolume(s: Shop, name: string, capacity: nat, limit: int): Answer {
    if Titled(s.rooms, name).Some? then Reused(Titled(s.rooms, name).value, capacity, limit) else Volume(s.next, capacity)
  }

  /** One create, when nobody else uses the store: it adds the dataroom or nothing, whether its answer comes or not. */
  lemma CreatesAlone(s: Shop, script: seq<Interlude>, calm: Quota, name: string, capacity: nat, limit: int)
    requires Alone(script)
    ensures var (a, s') := Created(s, script, calm, name, capacity, limit);
            && (s' == s || (Titled(s.rooms, name).None? && s' == WithRoom(s, name, Reservation(capacity))))
            && (a.Volume? || a == Error(AlreadyExists) ==> a == TheVolume(s, name, capacity, limit) && Titled(s'.rooms, name).Some?)
  {
    MetAlone(s, script, calm, 0);
    MetAlone(s, script, calm, 1);
    MetAlone(s, script, calm, 2);
    TitledAppended(s.rooms, Dataroom(s.next, name, Reservation(capacity)), name);
  }

  /** Creates of one request after another, each with its own script: the answers, and the store in the end. */
  function Retried(s: Shop, scripts: seq<seq<Interlude>>, calm: Quota, name: string, capacity: nat, limit: int): (r: (seq<Answer>, Shop))
    ensures |r.0| == |scripts|
  {
    if scripts == [] then ([], s)
    else
      var before := Retried(s, scripts[..|scripts| - 1], calm, name, capacity, limit);
      var last := Created(before.1, scripts[|scripts| - 1], calm, name, capacity, limit);
      (before.0 + [last.0], last.1)
  }

  /** The datarooms of a name. */
  function Named(rooms: seq<Dataroom>, name: string): seq<Dataroom> {
    if rooms == [] then [] else (if rooms[0].title == name then [rooms[0]] else []) + Named(rooms[1..], name)
  }

  lemma {:induction false} TitledIsFirst(rooms: seq<Dataroom>, name: string)
    ensures Titled(rooms, name) == if Named(rooms, name) == [] then None else Some(Named(rooms, name)[0])
  {
    if rooms != [] {
      TitledIsFirst(rooms[1..], name);
    }
  }

  lemma {:induction false} NamedAppended(rooms: seq<Dataroom>, r: Dataroom, name: string)
    ensures Named(rooms + [r], name) == Named(rooms, name) + (if r.title == name then [r] else [])
  {
    var all, last := rooms + [r], if r.title == name then [r] else [];
    if rooms == [] {
      assert all == [r] && all[1..] == [];
      assert Named(all, name) == last;
    } else {
      var first := if rooms[0].title == name then [rooms[0]] else [];
      assert all[0] == rooms[0] && all[1..] == rooms[1..] + [r];
      NamedAppended(rooms[1..], r, name);
      assert first + (Named(rooms[1..], name) + last) == (first + Named(rooms[1..], name)) + last;
    }
  }

  /** No dataroom with this ID has the name. */
  predicate Apart(rooms: seq<Dataroom>, id: RoomId, name: string) {
    forall i :: 0 <= i < |rooms| && rooms[i].id == id ==> rooms[i].title != name
  }

  lemma {:induction false} NamedReserved(rooms: seq<Dataroom>, id: RoomId, capacity: nat, name: string)
    requires Apart(rooms, id, name)
    ensures Named(WithReservation(rooms, id, capacity), name) == Named(rooms, name)
  {
    if rooms != [] {
      assert WithReservation(rooms, id, capacity)[1..] == WithReservation(rooms[1..], id, capacity);
      NamedReserved(rooms[1..], id, capacity, name);
    }
  }

  lemma {:induction false} NamedWithout(rooms: seq<Dataroom>, id: RoomId, name: string)
    requires Apart(rooms, id, name)
    ensures Named(Without(rooms, id), name) == Named(rooms, name)
  {
    if rooms != [] {
      NamedWithout(rooms[1..], id, name);
      var rest := Without(rooms[1..], id);
      assert ([rooms[0]] + rest)[1..] == rest && [] + rest == rest;
    }
  }

  /** A move of somebody else that leaves the datarooms of a name alone. */
  predicate SparesName(s: Shop, o: Other, name: string) {
    match o
    case Creates(title, _) => title != name
    case Enlarges(id, _) => Apart(s.rooms, id, name)
    case Removes(id) => Apart(s.rooms, id, name)
  }

  predicate OthersSpareName(s: Shop, moves: seq<Other>, name: string) {
    moves == [] ||
    (OthersSpareName(s, moves[..|moves| - 1], name) && SparesName(Others(s, moves[..|moves| - 1]), moves[|moves| - 1], name))
  }

  lemma {:induction false} OthersKeepNamed(s: Shop, moves: seq<Other>, name: string)
    requires OthersSpareName(s, moves, name)
    ensures Named(Others(s, moves).rooms, name) == Named(s.rooms, name)
  {
    if moves != [] {
      var before, o := Others(s, moves[..|moves| - 1]), moves[|moves| - 1];
      OthersKeepNamed(s, moves[..|moves| - 1], name);
      match o
      case Creates(title, reserved) => NamedAppended(before.rooms, Dataroom(before.next, title, reserved), name);
      case Enlarges(id, to) => NamedReserved(before.rooms, id, to, name);
      case Removes(id) => NamedWithout(before.rooms, id, name);
    }
  }

  /** Whatever others do up to the k-th call from now, they leave the datarooms of the name alone. */
  predicate NameSpared(s: Shop, script: seq<Interlude>, calm: Quota, name: string, k: nat) {
    && (k > 0 ==> NameSpared(s, script, calm, name, k - 1))
    && OthersSpareName(if k == 0 then s else Met(s, script, calm, k - 1), Turn(script, calm, k).others, name)
  }

  lemma {:induction false} MetKeepsNamed(s: Shop, script: seq<Interlude>, calm: Quota, name: string, k: nat)
    requires NameSpared(s, script, calm, name, k)
    ensures Named(Met(s, script, calm, k).rooms, name) == Named(s.rooms, name)
  {
    if k > 0 {
      MetKeepsNamed(s, script, calm, name, k - 1);
    }
    OthersKeepNamed(if k == 0 then s else Met(s, script, calm, k - 1), Turn(script, calm, k).others, name);
  }

  /** What a create can make of the datarooms of its name: nothing, or the first. */
  predicate AtMostOneNew(before: seq<Dataroom>, after: seq<Dataroom>) { after == before || (before == [] && |after| == 1) }

  /** One create, whatever others do to other datarooms and whatever becomes of its calls: it adds at most the first
      dataroom of the name, and a volume in its answer is that one. */
  lemma CreatesOne(s: Shop, script: seq<Interlude>, calm: Quota, name: string, capacity: nat, limit: int)
    requires (limit > 0 ==> capacity <= limit) && NameSpared(s, script, calm, name, 2)
    ensures var (a, s') := Created(s, script, calm, name, capacity, limit);
            var rooms := Named(s'.rooms, name);
            && AtMostOneNew(Named(s.rooms, name), rooms)
            && (a.Volume? ==> rooms != [] && a == Reused(rooms[0], capacity, limit))
  {
    MetKeepsNamed(s, script, calm, name, 0);
    MetKeepsNamed(s, script, calm, name, 1);
    MetKeepsNamed(s, script, calm, name, 2);
    TitledIsFirst(Met(s, script, calm, 0).rooms, name);
    var last := Met(s, script, calm, 2);
    NamedAppended(last.rooms, Dataroom(last.next, name, Reservation(capacity)), name);
  }

  /** Others leave the name alone during all the retries, and in between. */
  predicate AllSpareName(s: Shop, scripts: seq<seq<Interlude>>, calm: Quota, name: string, capacity: nat, limit: int) {
    scripts == [] ||
    var before := scripts[..|scripts| - 1];
    && AllSpareName(s, before, calm, name, capacity, limit)
    && NameSpared(Retried(s, before, calm, name, capacity, limit).1, scripts[|scripts| - 1], calm, name, 2)
  }

  /** However often a create is retried, whatever becomes of each call, lost answers included, and whatever others do to
      other datarooms meanwhile: at most one dataroom of the name is added, and every answer that gives a volume gives the
      ID and size of the first dataroom that has the name in the end. */
  lemma {:induction false} RetryCreates(s: Shop, scripts: seq<seq<Interlude>>, calm: Quota, name: string, capacity: nat, limit: int)
    requires (limit > 0 ==> capacity <= limit) && AllSpareName(s, scripts, calm, name, capacity, limit)
    ensures var (answers, s') := Retried(s, scripts, calm, name, capacity, limit);
            var rooms := Named(s'.rooms, name);
            && AtMostOneNew(Named(s.rooms, name), rooms)
            && forall i :: 0 <= i < |answers| && answers[i].Volume? ==> rooms != [] && answers[i] == Reused(rooms[0], capacity, limit)
  {
    if scripts != [] {
      var before := Retried(s, scripts[..|scripts| - 1], calm, name, capacity, limit);
      RetryCreates(s, scripts[..|scripts| - 1], calm, name, capacity, limit);
      CreatesOne(before.1, scripts[|scripts| - 1], calm, name, capacity, limit);
    }
  }

  /** The create found no dataroom of its name, was allowed one, and its last call takes effect. */
  predicate Creating(s: Shop, script: seq<Interlude>, calm: Quota, name: string) {
    var allowed := Turn(script, calm, 1);
    && Turn(script, calm, 0).ending.Applies? && Titled(Met(s, script, calm, 0).rooms, name).None?
    && allowed.ending.Applies? && !allowed.quota.readOnly && HasRoom(allowed.quota) && !Turn(script, calm, 2).ending.Fails?
  }

  /** A create leaves a second dataroom of its name if and only if somebody made one after its listing. */
  lemma SecondIff(s: Shop, script: seq<Interlude>, calm: Quota, name: string, capacity: nat, limit: int)
    requires Creating(s, script, calm, name)
    ensures |Named(Created(s, script, calm, name, capacity, limit).1.rooms, name)| > 1 <==> Titled(Met(s, script, calm, 2).rooms, name).Some?
  {
    var last := Met(s, script, calm, 2);
    TitledIsFirst(last.rooms, name);
    NamedAppended(last.rooms, Dataroom(last.next, name, Reservation(capacity)), name);
  }

  /** The first of two creates that overlap is, for the second, a move of somebody else after its listing. Both give a
      volume, with two datarooms. */
  lemma OverlappingCreates(s: Shop, calm: Quota, name: string, capacity: nat, limit: int) returns (script: seq<Interlude>)
    requires Titled(s.rooms, name).None? && !calm.readOnly && HasRoom(calm) && (capacity == 0 || capacity >= MIN_CAPACITY)
    ensures var (first, s') := Created(s, [], calm, name, capacity, limit);
            var (second, s'') := Created(s, script, calm, name, capacity, limit);
            && first == Volume(s.next, capacity) && s' == Met(s, script, calm, 2)
            && second == Volume(s.next + 1, capacity) && |Named(s''.rooms, name)| == 2
  {
    script := [Interlude([], Applies, calm), Interlude([], Applies, calm), Interlude([Creates(name, Reservation(capacity))], Applies, calm)];
    MetAlone(s, [], calm, 0);
    MetAlone(s, [], calm, 1);
    MetAlone(s, [], calm, 2);
    var made := script[2].others;
    assert made[..|made| - 1] == [];
    assert Others(s, []) == s && Others(s, made) == WithRoom(s, name, Reservation(capacity));
    assert Met(s, script, calm, 0) == s && Met(s, script, calm, 1) == s && Met(s, script, calm, 2) == Others(s, made);
    TitledIsFirst(s.rooms, name);
    NamedAppended(s.rooms, Dataroom(s.next, name, Reservation(capacity)), name);
    var last := Met(s, script, calm, 2);
    NamedAppended(last.rooms, Dataroom(last.next, name, Reservation(capacity)), name);
  }

  /** When nobody else uses the store, it changes by that dataroom or not at all. */
  lemma {:induction false} RetryCreatesAlone(s: Shop, scripts: seq<seq<Interlude>>, calm: Quota, name: string, capacity: nat, limit: int)
    requires limit > 0 ==> capacity <= limit
    requires forall i :: 0 <= i < |scripts| ==> Alone(scripts[i])
    ensures var (answers, s') := Retried(s, scripts, calm, name, capacity, limit);
            && (s' == s || (Titled(s.rooms, name).None? && s' == WithRoom(s, name, Reservation(capacity))))
            && forall i :: 0 <= i < |answers| && answers[i].Volume? ==>
                 answers[i] == TheVolume(s, name, capacity, limit) && Titled(s'.rooms, name).Some?
  {
    if scripts != [] {
      var before := Retried(s, scripts[..|scripts| - 1], calm, name, capacity, limit);
      RetryCreatesAlone(s, scripts[..|scripts| - 1], calm, name, capacity, limit);
      CreatesAlone(before.1, scripts[|scripts| - 1], calm, name, capacity, limit);
      TitledAppended(s.rooms, Dataroom(s.next, name, Reservation(capacity)), name);
    }
  }

  /** The request: whether its capabilities and parameters are supported, why the
      claim or the credentials refuse it, if they do. */
  datatype CreateRequest = CreateRequest(name: string, supported: bool, required: int, limit: int, refused: Option<Code>)

  /** The search for a dataroom of the name. */
  method FirstTitled(items: seq<Dataroom>, name: string) returns (same: Option<Dataroom>)
    ensures same == Titled(items, name)
  {
    for i := 0 to |items|
      invariant Titled(items, name) == Titled(items[i..], name)
    {
      assert items[i..][1..] == items[i + 1..];
      if items[i].title == name {
        return Some(items[i]);
      }
    }
    assert items[|items|..] == [];
    same := None;
  }

  /** A range that some reservation meets, or none at all. */
  predicate InRange(required: int, limit: int) {
    0 <= required && 0 <= limit && (limit > 0 ==> required <= limit && MIN_CAPACITY <= limit)
  }

  /** What a range asks for: nothing, or at least the floor. */
  function Asked(required: int, limit: int): nat
    requires InRange(required, limit)
  {
    if required == 0 && limit == 0 then 0 else if required < MIN_CAPACITY then MIN_CAPACITY else required
  }

  predicate FitsRange(r: Dataroom, required: int, limit: int)
    requires InRange(required, limit)
  {
    r.reserved.Some? ==> Asked(required, limit) <= r.reserved.value && (limit > 0 ==> r.reserved.value <= limit)
  }

  /** The next calls apply and are answered. */
  predicate Answered(script: seq<Interlude>, calm: Quota, n: nat) { forall k :: 0 <= k < n ==> Turn(script, calm, k).ending.Applies? }

  /** What a create comes to when nothing else happens to the store. */
  predicate CreatesIn(u: Shop, w: Shop, quota: Quota, req: CreateRequest, a: Answer)
    requires InRange(req.required, req.limit)
  {
    var same, asked := Titled(u.rooms, req.name), Asked(req.required, req.limit);
    if same.Some? then
      && w == u
      && a == if !FitsRange(same.value, req.required, req.limit) then Error(AlreadyExists)
              else Volume(same.value.id, if same.value.reserved.Some? then same.value.reserved.value else asked)
    else if quota.readOnly || (quota.limit.Some? && quota.count >= quota.limit.value) then w == u && a == Error(ResourceExhausted)
    else
      && a == Volume(u.next, asked)
      && w == Shop(u.rooms + [Dataroom(u.next, req.name, if asked > 0 then Some(asked) else None)], u.next + 1)
  }

  /** A create gives a volume exactly when its calls are answered and the dataroom that has the name is in the range, or the
      account may have another one. */
  predicate CreatesWhen(s: Shop, script: seq<Interlude>, calm: Quota, req: CreateRequest)
    requires InRange(req.required, req.limit)
  {
    var same, quota := Titled(Met(s, script, calm, 0).rooms, req.name), Turn(script, calm, 1).quota;
    && Turn(script, calm, 0).ending.Applies?
    && if same.Some? then FitsRange(same.value, req.required, req.limit)
       else
         && Turn(script, calm, 1).ending.Applies? && !quota.readOnly && (quota.limit.Some? ==> quota.count < quota.limit.value)
         && Turn(script, calm, 2).ending.Applies?
  }

  lemma CreatesExactly(s: Shop, script: seq<Interlude>, calm: Quota, req: CreateRequest)
    requires InRange(req.required, req.limit)
    ensures ReservedBytes(req.required, req.limit) == Reserve(Asked(req.required, req.limit))
    ensures var (a, s') := Created(s, script, calm, req.name, Asked(req.required, req.limit), req.limit);
            && (a.Volume? <==> CreatesWhen(s, script, calm, req))
            && (Alone(script) && Answered(script, calm, 3) ==> CreatesIn(s, s', Turn(script, calm, 1).quota, req, a))
  {
    if Alone(script) {
      MetAlone(s, script, calm, 0);
      MetAlone(s, script, calm, 1);
      MetAlone(s, script, calm, 2);
    }
  }

  method CreateVolume(s: Store, req: CreateRequest) returns (a: Answer)
    requires s.Valid()
    modifies s`rooms, s`next, s`script
    ensures s.Valid() && NoneShrank(old(s.rooms), s.rooms, old(s.next))
    // Everything that can be refused is refused before anything is created.
    ensures req.name == "" || !req.supported || ReservedBytes(req.required, req.limit).BadRange? || req.refused.Some? ==>
              a.Error? && s.rooms == old(s.rooms) && s.script == old(s.script)
    // A volume is a dataroom of that name, in the range.
    ensures a.Volume? ==>
              && Find(s.rooms, a.id).Some? && Find(s.rooms, a.id).value.title == req.name
              && var r := Find(s.rooms, a.id).value;
                 if r.reserved.Some? then a.size == r.reserved.value && Meets(a.size, req.required, req.limit)
                 else Reserve(a.size) == ReservedBytes(req.required, req.limit)
    ensures req.name != "" && req.supported && ReservedBytes(req.required, req.limit).Reserve? && req.refused.None? ==>
              (a, s.Now()) == Created(old(s.Now()), old(s.script), s.calm, req.name, ReservedBytes(req.required, req.limit).bytes, req.limit)
    ensures req.name != "" && req.supported && InRange(req.required, req.limit) && req.refused.None? ==>
              (a.Volume? <==> CreatesWhen(old(s.Now()), old(s.script), s.calm, req))
    // When every call is answered and nobody else uses the store: the dataroom of the name, or a new one.
    ensures req.name != "" && req.supported && InRange(req.required, req.limit) && req.refused.None? &&
            Alone(old(s.script)) && Answered(old(s.script), s.calm, 3) ==>
              CreatesIn(old(s.Now()), s.Now(), Turn(old(s.script), s.calm, 1).quota, req, a)
  {
    if InRange(req.required, req.limit) {
      CreatesExactly(s.Now(), s.script, s.calm, req);
    }
    if req.name == "" || !req.supported {
      return Error(InvalidArgument);
    }
    var reserve := ReservedBytes(req.required, req.limit);
    if reserve.BadRange? {
      return Error(reserve.code);
    }
    var capacity := reserve.bytes;
    if req.refused.Some? {
      return Error(req.refused.value);
    }
    MetLater(s.Now(), s.script, s.calm, 0);
    MetLater(s.Now(), s.script, s.calm, 1);
    var ok, items := s.List();
    if !ok {
      return Error(CallFailed);
    }
    var same := FirstTitled(items, req.name);
    if same.Some? {
      var i :| 0 <= i < |items| && items[i] == same.value;
      FindIs(items, i);
      return Reused(same.value, capacity, req.limit);
    }
    a := CreateRoom(s, req.name, capacity);
  }

  /** The end of CreateVolume: no dataroom has the name. */
  method CreateRoom(s: Store, name: string, capacity: nat) returns (a: Answer)
    requires s.Valid() && (capacity > 0 ==> capacity >= MIN_CAPACITY)
    modifies s`rooms, s`next, s`script
    ensures s.Valid() && NoneShrank(old(s.rooms), s.rooms, old(s.next))
    ensures a.Volume? ==> a.size == capacity && Find(s.rooms, a.id) == Some(Dataroom(a.id, name, Reservation(capacity)))
    ensures var allowed, last := Met(old(s.Now()), old(s.script), s.calm, 0), Met(old(s.Now()), old(s.script), s.calm, 1);
            var quota, ending := Turn(old(s.script), s.calm, 0).quota, Turn(old(s.script), s.calm, 1).ending;
            (a, s.Now()) ==
              if !Turn(old(s.script), s.calm, 0).ending.Applies? then (Error(CallFailed), allowed)
              else if quota.readOnly || !HasRoom(quota) then (Error(ResourceExhausted), allowed)
              else if ending.Fails? then (Error(CallFailed), last)
              else (if ending.Applies? then Volume(last.next, capacity) else Error(CallFailed), WithRoom(last, name, Reservation(capacity)))
  {
    MetLater(s.Now(), s.script, s.calm, 0);
    var ok, quota := s.ReadQuota();
    if !ok {
      return Error(CallFailed);
    }
    if quota.readOnly || !HasRoom(quota) {
      return Error(ResourceExhausted);
    }
    var size := None;
    if capacity > 0 {
      var text := FormatSize(capacity);
      size := Some(text);
    }
    var id;
    ok, id := s.Create(name, size);
    a := if ok then Volume(id, capacity) else Error(CallFailed);
  }

  method DeleteVolume(s: Store, id: Option<RoomId>, credentials: Option<Code>) returns (code: Option<Code>)
    requires s.Valid()
    modifies s`rooms, s`next, s`script
    ensures s.Valid() && NoneShrank(old(s.rooms), s.rooms, old(s.next))
    ensures id.None? || credentials.Some? ==> code.Some? && s.rooms == old(s.rooms)
    // Deleted, or gone already: success either way.
    ensures code.None? ==> Find(s.rooms, id.value).None?
    // An error when the call failed, or its answer was lost: then the dataroom is gone all the same.
    ensures id.Some? && credentials.None? ==>
              var met, ending := Met(old(s.Now()), old(s.script), s.calm, 0), Turn(old(s.script), s.calm, 0).ending;
              && (code.None? <==> ending.Applies?)
              && s.Now() == (if ending.Fails? then met else met.(rooms := Without(met.rooms, id.value)))
  {
    if id.None? {
      return Some(InvalidArgument);
    }
    if credentials.Some? {
      return credentials;
    }
    var ok, gone := s.Remove(id.value);
    code := if ok || gone then None else Some(CallFailed);
  }

  function ReservedBy(rooms: seq<Dataroom>, id: RoomId): Option<nat> {
    if Find(rooms, id).Some? then Find(rooms, id).value.reserved else None
  }

  /** What an expand does with a request in order: the answer, the `set` that reached the API, the store. */
  datatype Expansion = Expansion(answer: Answer, ask: Option<Ask>, after: Shop)

  /** What ControllerExpandVolume does with a request in order, on what its two calls meet: the listing, the `set`. */
  function Expanded(s: Shop, script: seq<Interlude>, calm: Quota, id: RoomId, capacity: nat): Expansion {
    var listed, met, ending := Met(s, script, calm, 0), Met(s, script, calm, 1), Turn(script, calm, 1).ending;
    if !Turn(script, calm, 0).ending.Applies? then Expansion(Error(CallFailed), None, listed)
    else if Covers(ReservedBy(listed.rooms, id), capacity) then Expansion(Volume(id, ReservedBy(listed.rooms, id).value), None, listed)
    else if ending.Fails? then Expansion(Error(CallFailed), None, met)
    else if Find(met.rooms, id).None? then Expansion(Error(if ending.Applies? then NotFound else CallFailed), None, met)
    else
      var ask := Ask(id, capacity, ReservedBy(met.rooms, id));
      if !Acceptable(met.rooms, id, capacity) then Expansion(Error(if ending.Applies? then OutOfRange else CallFailed), Some(ask), met)
      else
        Expansion(if ending.Applies? then Volume(id, capacity) else Error(CallFailed), Some(ask),
                  met.(rooms := WithReservation(met.rooms, id, capacity)))
  }

  predicate AsksForLess(a: Ask) { a.current.Some? && a.capacity < a.current.value }

  /** A `set` asks for less than the current reservation exactly if the listing was read, it did not cover the request,
      and somebody raised the reservation above the request before the `set` arrived. The reservation then stays. */
  lemma AsksForLessIff(s: Shop, script: seq<Interlude>, calm: Quota, id: RoomId, capacity: nat)
    ensures var x, listed, met := Expanded(s, script, calm, id, capacity), Met(s, script, calm, 0), Met(s, script, calm, 1);
            && (x.ask.Some? && AsksForLess(x.ask.value) <==>
                  && Turn(script, calm, 0).ending.Applies? && !Turn(script, calm, 1).ending.Fails?
                  && ReservedBy(met.rooms, id).Some? && ReservedBy(met.rooms, id).value > capacity
                  && (ReservedBy(listed.rooms, id).None? || ReservedBy(listed.rooms, id).value < capacity))
            && (x.ask.Some? && AsksForLess(x.ask.value) ==> x.after == met && x.answer.Error?)
  {}

  /** It happens: somebody enlarges the dataroom of 20 GiB to 60 GiB between the listing and the `set` of 40 GiB. */
  lemma AskForLessHappens(calm: Quota)
    ensures var s := Shop([Dataroom(0, "v", Some(MIN_CAPACITY))], 1);
            var script := [Interlude([], Applies, calm), Interlude([Enlarges(0, 3 * MIN_CAPACITY)], Applies, calm)];
            var x := Expanded(s, script, calm, 0, 2 * MIN_CAPACITY);
            && WellFormed(s.rooms, s.next) && x.ask == Some(Ask(0, 2 * MIN_CAPACITY, Some(3 * MIN_CAPACITY))) && AsksForLess(x.ask.value)
            && x.answer == Error(OutOfRange)
  {
    var s := Shop([Dataroom(0, "v", Some(MIN_CAPACITY))], 1);
    var script := [Interlude([], Applies, calm), Interlude([Enlarges(0, 3 * MIN_CAPACITY)], Applies, calm)];
    assert Met(s, script, calm, 0) == s;
    assert Turn(script, calm, 1).others[..0] == [];
    assert Met(s, script, calm, 1) == Moved(s, Enlarges(0, 3 * MIN_CAPACITY));
    FindReserved(s.rooms, 0, 3 * MIN_CAPACITY, 0);
  }

  /** The size of a volume expanded, when nobody else uses the store. */
  function SizeExpanded(rooms: seq<Dataroom>, id: RoomId, capacity: nat): nat {
    if Covers(ReservedBy(rooms, id), capacity) then ReservedBy(rooms, id).value else capacity
  }

  /** The same expand again and again, each time with its own script. */
  function ReExpanded(s: Shop, scripts: seq<seq<Interlude>>, calm: Quota, id: RoomId, capacity: nat): (r: (seq<Answer>, Shop))
    ensures |r.0| == |scripts|
  {
    if scripts == [] then ([], s)
    else
      var before := ReExpanded(s, scripts[..|scripts| - 1], calm, id, capacity);
      var last := Expanded(before.1, scripts[|scripts| - 1], calm, id, capacity);
      (before.0 + [last.answer], last.after)
  }

  /** One expand, when nobody else uses the store: the reservation is raised or nothing happens, and no `set` asks for less. */
  lemma ExpandsAlone(s: Shop, script: seq<Interlude>, calm: Quota, id: RoomId, capacity: nat)
    requires Alone(script) && capacity >= MIN_CAPACITY
    ensures var x := Expanded(s, script, calm, id, capacity);
            && (x.after == s || (Find(s.rooms, id).Some? && !Covers(ReservedBy(s.rooms, id), capacity) &&
                                 x.after == s.(rooms := WithReservation(s.rooms, id, capacity))))
            && (x.answer.Volume? ==> x.answer == Volume(id, SizeExpanded(s.rooms, id, capacity)) && Covers(ReservedBy(x.after.rooms, id), capacity))
            && (x.ask.Some? ==> !AsksForLess(x.ask.value))
            && x.answer != Error(OutOfRange)
  {
    MetAlone(s, script, calm, 0);
    MetAlone(s, script, calm, 1);
    FindReserved(s.rooms, id, capacity, id);
  }

  /** A move of somebody else that leaves the dataroom of an ID alone. */
  predicate SparesId(s: Shop, o: Other, id: RoomId) {
    match o
    case Creates(_, _) => s.next != id
    case Enlarges(x, _) => x != id
    case Removes(x) => x != id
  }

  predicate OthersSpareId(s: Shop, moves: seq<Other>, id: RoomId) {
    moves == [] ||
    (OthersSpareId(s, moves[..|moves| - 1], id) && SparesId(Others(s, moves[..|moves| - 1]), moves[|moves| - 1], id))
  }

  lemma {:induction false} OthersKeepFound(s: Shop, moves: seq<Other>, id: RoomId)
    requires OthersSpareId(s, moves, id)
    ensures Find(Others(s, moves).rooms, id) == Find(s.rooms, id)
  {
    if moves != [] {
      var before, o := Others(s, moves[..|moves| - 1]), moves[|moves| - 1];
      OthersKeepFound(s, moves[..|moves| - 1], id);
      match o
      case Creates(title, reserved) => FindAppended(before.rooms, Dataroom(before.next, title, reserved), id);
      case Enlarges(x, to) => FindReserved(before.rooms, x, to, id);
      case Removes(x) => FindWithout(before.rooms, x, id);
    }
  }

  predicate IdSpared(s: Shop, script: seq<Interlude>, calm: Quota, id: RoomId, k: nat) {
    && (k > 0 ==> IdSpared(s, script, calm, id, k - 1))
    && OthersSpareId(if k == 0 then s else Met(s, script, calm, k - 1), Turn(script, calm, k).others, id)
  }

  lemma {:induction false} MetKeepsFound(s: Shop, script: seq<Interlude>, calm: Quota, id: RoomId, k: nat)
    requires IdSpared(s, script, calm, id, k)
    ensures Find(Met(s, script, calm, k).rooms, id) == Find(s.rooms, id)
  {
    if k > 0 {
      MetKeepsFound(s, script, calm, id, k - 1);
    }
    OthersKeepFound(if k == 0 then s else Met(s, script, calm, k - 1), Turn(script, calm, k).others, id);
  }

  /** What an expand can make of its dataroom: nothing, or the reservation is raised to the request. */
  predicate AtMostRaised(before: Option<Dataroom>, after: Option<Dataroom>, capacity: nat) {
    after == before ||
    (before.Some? && !Covers(before.value.reserved, capacity) && after == Some(before.value.(reserved := Some(capacity))))
  }

  /** One expand, whatever others do to other datarooms and whatever becomes of its calls: the reservation is raised or
      nothing happens, and no `set` asks for less. */
  lemma ExpandsOne(s: Shop, script: seq<Interlude>, calm: Quota, id: RoomId, capacity: nat)
    requires capacity >= MIN_CAPACITY && IdSpared(s, script, calm, id, 1)
    ensures var x := Expanded(s, script, calm, id, capacity);
            && AtMostRaised(Find(s.rooms, id), Find(x.after.rooms, id), capacity)
            && (x.answer.Volume? ==> x.answer == Volume(id, SizeExpanded(s.rooms, id, capacity)) && Covers(ReservedBy(x.after.rooms, id), capacity))
            && (x.ask.Some? ==> !AsksForLess(x.ask.value)) && x.answer != Error(OutOfRange)
  {
    MetKeepsFound(s, script, calm, id, 0);
    MetKeepsFound(s, script, calm, id, 1);
    FindReserved(Met(s, script, calm, 1).rooms, id, capacity, id);
  }

  /** Others leave the ID alone during all the retries, and in between. */
  predicate AllSpareId(s: Shop, scripts: seq<seq<Interlude>>, calm: Quota, id: RoomId, capacity: nat) {
    scripts == [] ||
    var before := scripts[..|scripts| - 1];
    && AllSpareId(s, before, calm, id, capacity)
    && IdSpared(ReExpanded(s, before, calm, id, capacity).1, scripts[|scripts| - 1], calm, id, 1)
  }

  /** However often an expand is retried, whatever becomes of each call, lost answers included, and whatever others do to
      other datarooms meanwhile: the reservation is raised once or not at all, and every answer that gives a size gives the
      same one, at least the request. */
  lemma {:induction false} RetryExpands(s: Shop, scripts: seq<seq<Interlude>>, calm: Quota, id: RoomId, capacity: nat)
    requires capacity >= MIN_CAPACITY && AllSpareId(s, scripts, calm, id, capacity)
    ensures var (answers, s') := ReExpanded(s, scripts, calm, id, capacity);
            && AtMostRaised(Find(s.rooms, id), Find(s'.rooms, id), capacity)
            && SizeExpanded(s.rooms, id, capacity) >= capacity
            && forall i :: 0 <= i < |answers| && answers[i].Volume? ==>
                 answers[i] == Volume(id, SizeExpanded(s.rooms, id, capacity)) && Covers(ReservedBy(s'.rooms, id), capacity)
  {
    if scripts != [] {
      var before := ReExpanded(s, scripts[..|scripts| - 1], calm, id, capacity);
      RetryExpands(s, scripts[..|scripts| - 1], calm, id, capacity);
      ExpandsOne(before.1, scripts[|scripts| - 1], calm, id, capacity);
    }
  }

  /** When nobody else uses the store, it changes by that reservation or not at all. */
  lemma {:induction false} RetryExpandsAlone(s: Shop, scripts: seq<seq<Interlude>>, calm: Quota, id: RoomId, capacity: nat)
    requires capacity >= MIN_CAPACITY && forall i :: 0 <= i < |scripts| ==> Alone(scripts[i])
    ensures var (answers, s') := ReExpanded(s, scripts, calm, id, capacity);
            && (s' == s || (Find(s.rooms, id).Some? && !Covers(ReservedBy(s.rooms, id), capacity) &&
                            s' == s.(rooms := WithReservation(s.rooms, id, capacity))))
            && SizeExpanded(s.rooms, id, capacity) >= capacity
            && forall i :: 0 <= i < |answers| && answers[i].Volume? ==>
                 answers[i] == Volume(id, SizeExpanded(s.rooms, id, capacity)) && Covers(ReservedBy(s'.rooms, id), capacity)
  {
    if scripts != [] {
      var before := ReExpanded(s, scripts[..|scripts| - 1], calm, id, capacity);
      RetryExpandsAlone(s, scripts[..|scripts| - 1], calm, id, capacity);
      ExpandsAlone(before.1, scripts[|scripts| - 1], calm, id, capacity);
      FindReserved(s.rooms, id, capacity, id);
    }
  }

  /** The search for a reservation that covers the request already. */
  method FindCovering(items: seq<Dataroom>, id: RoomId, capacity: nat) returns (size: Option<nat>)
    requires Distinct(items)
    ensures size == if Covers(ReservedBy(items, id), capacity) then ReservedBy(items, id) else None
  {
    for i := 0 to |items|
      invariant forall j :: 0 <= j < i ==> !(items[j].id == id && Covers(items[j].reserved, capacity))
    {
      var dr := items[i];
      if dr.id == id && Covers(dr.reserved, capacity) {
        FindIs(items, i);
        return dr.reserved;
      }
    }
    assert Find(items, id).Some? ==> !Covers(Find(items, id).value.reserved, capacity);
    size := None;
  }

  /** What an expand comes to when nothing else happens to the store. */
  predicate ExpandsIn(u: Shop, w: Shop, id: RoomId, asked: nat, a: Answer) {
    var r := Find(u.rooms, id);
    if r.None? then a == Error(NotFound) && w == u
    else
      var size := if r.value.reserved.Some? && r.value.reserved.value >= asked then r.value.reserved.value else asked;
      a == Volume(id, size) && Find(w.rooms, id) == Some(r.value.(reserved := Some(size)))
  }

  /** An expand gives a size exactly when the listing is answered and covers the request, or the `set` is answered and
      accepted. */
  predicate ExpandsWhen(s: Shop, script: seq<Interlude>, calm: Quota, id: RoomId, asked: nat) {
    var before, met := ReservedBy(Met(s, script, calm, 0).rooms, id), Met(s, script, calm, 1);
    && Turn(script, calm, 0).ending.Applies?
    && ((before.Some? && before.value >= asked) ||
        (Turn(script, calm, 1).ending.Applies? && Find(met.rooms, id).Some? &&
         (ReservedBy(met.rooms, id).Some? ==> ReservedBy(met.rooms, id).value <= asked)))
  }

  lemma ExpandsExactly(s: Shop, script: seq<Interlude>, calm: Quota, id: RoomId, required: int, limit: int)
    requires 0 < required && InRange(required, limit)
    ensures ReservedBytes(required, limit) == Reserve(Asked(required, limit))
    ensures var asked := Asked(required, limit);
            var x := Expanded(s, script, calm, id, asked);
            && (x.answer.Volume? <==> ExpandsWhen(s, script, calm, id, asked))
            && (Alone(script) && Answered(script, calm, 2) ==> ExpandsIn(s, x.after, id, asked, x.answer))
  {
    var asked := Asked(required, limit);
    FindReserved(s.rooms, id, asked, id);
    if Alone(script) {
      MetAlone(s, script, calm, 0);
      MetAlone(s, script, calm, 1);
    }
  }

  method ControllerExpandVolume(s: Store, id: Option<RoomId>, required: int, limit: int, credentials: Option<Code>) returns (a: Answer)
    requires s.Valid()
    modifies s`rooms, s`next, s`script, s`asked
    ensures s.Valid() && NoneShrank(old(s.rooms), s.rooms, old(s.next))
    ensures id.None? || required == 0 || ReservedBytes(required, limit).BadRange? || credentials.Some? ==>
              a.Error? && s.rooms == old(s.rooms) && s.asked == old(s.asked)
    // The volume now reserves what is reported, at least the request and the floor.
    ensures a.Volume? ==>
              && id == Some(a.id) && Find(s.rooms, a.id).Some? && Find(s.rooms, a.id).value.reserved == Some(a.size)
              && a.size >= required && a.size >= MIN_CAPACITY
    // At most one `set`, and what the expand does on what its calls meet.
    ensures s.asked == old(s.asked) || (old(s.asked) < s.asked && |s.asked| == |old(s.asked)| + 1)
    ensures id.Some? && required != 0 && ReservedBytes(required, limit).Reserve? && credentials.None? ==>
              var x := Expanded(old(s.Now()), old(s.script), s.calm, id.value, ReservedBytes(required, limit).bytes);
              a == x.answer && s.Now() == x.after && s.asked == old(s.asked) + (if x.ask.Some? then [x.ask.value] else [])
    ensures id.Some? && 0 < required && InRange(required, limit) && credentials.None? ==>
              (a.Volume? <==> ExpandsWhen(old(s.Now()), old(s.script), s.calm, id.value, Asked(required, limit)))
    // When both calls are answered and nobody else uses the store: the larger of the reservation and the request.
    ensures id.Some? && 0 < required && InRange(required, limit) && credentials.None? &&
            Alone(old(s.script)) && Answered(old(s.script), s.calm, 2) ==>
              ExpandsIn(old(s.Now()), s.Now(), id.value, Asked(required, limit), a)
  {
    if id.Some? && 0 < required && InRange(required, limit) {
      ExpandsExactly(s.Now(), s.script, s.calm, id.value, required, limit);
    }
    if id.None? || required == 0 {
      return Error(InvalidArgument);
    }
    var reserve := ReservedBytes(required, limit);
    if reserve.BadRange? {
      return Error(reserve.code);
    }
    var capacity := reserve.bytes;
    if credentials.Some? {
      return Error(credentials.value);
    }
    a := ExpandRoom(s, id.value, capacity);
  }

  /** The calls of an expand: the listing, and the `set` unless it covers the request. */
  method ExpandRoom(s: Store, id: RoomId, capacity: nat) returns (a: Answer)
    requires s.Valid() && capacity >= MIN_CAPACITY
    modifies s`rooms, s`next, s`script, s`asked
    ensures s.Valid() && NoneShrank(old(s.rooms), s.rooms, old(s.next))
    ensures a.Volume? ==>
              a.id == id && a.size >= capacity && Find(s.rooms, id).Some? && Find(s.rooms, id).value.reserved == Some(a.size)
    ensures var x := Expanded(old(s.Now()), old(s.script), s.calm, id, capacity);
            a == x.answer && s.Now() == x.after && s.asked == old(s.asked) + (if x.ask.Some? then [x.ask.value] else [])
  {
    MetLater(s.Now(), s.script, s.calm, 0);
    var ok, items := s.List();
    if !ok {
      return Error(CallFailed);
    }
    var covering := FindCovering(items, id, capacity);
    if covering.Some? {
      return Volume(id, covering.value);
    }
    var text := FormatSize(capacity);
    var r := s.Set(id, text);
    match r
    case SetDone => a := Volume(id, capacity);
    case SetNotFound => a := Error(NotFound);
    case SetRefused => a := Error(OutOfRange);
    case SetFailed => a := Error(CallFailed);
  }
}
