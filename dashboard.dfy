/** The dashboard's pending-request table (blueprints/api/dashboard.py).

    A caller, keyed by its client address, submits a settings change; the
    change waits in `queues` until the bot's websocket drains it, moves to
    `doing` once the bot acknowledges it, and is resolved when the bot posts
    its reply. The settings catalogue the bot publishes is kept beside it. */
module Dashboard {
  import opened Json

  datatype Option<T> = None | Some(value: T)

  /** What the routes raise, by the HTTP status or Python exception. */
  datatype Error =
    | Locked      // status 423: a request from this caller is already pending
    | BadRequest  // status 400: unknown settings category
    | NotFound    // status 404: no request waits for this reply
    | KeyError    // a dict lookup on a missing key
    | TypeError   // `in` or `[...]` on a value of the wrong kind

  datatype Result<T> = Ok(value: T) | Err(error: Error)

  /** A message the settings websocket sends to the bot. */
  datatype Message =
    | OnPost(data: Value)  // `send("on_post", event.data)`
    | OnPosted             // `send("on_posted")`, the end of a drain cycle

  // ---------------------------------------------------------------------
  // Keys in insertion order (a Python dict iterates in insertion order)

  /** No element occurs twice. */
  predicate Distinct<T(==)>(s: seq<T>) {
    s == [] || (s[0] !in s[1..] && Distinct(s[1..]))
  }

  function Elems<T>(s: seq<T>): set<T> {
    set x | x in s
  }

  /** Appending an element that is absent keeps a listing duplicate-free. */
  lemma {:induction false} DistinctAppend<T>(s: seq<T>, x: T)
    requires Distinct(s) && x !in s
    ensures Distinct(s + [x])
  {
    if s != [] {
      assert (s + [x])[1..] == s[1..] + [x];
      DistinctAppend(s[1..], x);
    }
  }

  /** `s` with every occurrence of `x` taken out, the rest in order
      (`WithoutAt`). */
  function Without<T(==)>(s: seq<T>, x: T): (r: seq<T>)
    ensures Elems(r) == Elems(s) - {x}
    ensures Distinct(s) ==> Distinct(r)
    ensures x !in s ==> r == s
  {
    if s == [] then []
    else
      var rest := Without(s[1..], x);
      assert Elems(s) == {s[0]} + Elems(s[1..]);
      assert s[0] in rest ==> s[0] in Elems(rest);
      if s[0] == x then rest
      else
        assert Elems([s[0]] + rest) == {s[0]} + Elems(rest);
        assert ([s[0]] + rest)[1..] == rest;
        [s[0]] + rest
  }

  /** In a duplicate-free listing, removing the element at position `k` keeps
      everything before it and everything after it, in order. */
  lemma {:induction false} WithoutAt<T>(s: seq<T>, x: T, k: nat)
    requires Distinct(s) && k < |s| && s[k] == x
    ensures Without(s, x) == s[..k] + s[k + 1..]
  {
    var rest := Without(s[1..], x);
    if k == 0 {
      assert x !in s[1..];
      assert rest == s[1..];
      assert Without(s, x) == rest;
    } else {
      assert s[0] != x;
      assert Without(s, x) == [s[0]] + rest;
      WithoutAt(s[1..], x, k - 1);
      assert s[..k] == [s[0]] + s[1..][..k - 1];
      assert s[k + 1..] == s[1..][k..];
    }
  }

  // ---------------------------------------------------------------------
  // Submission data

  /** `event.data["ip"] = address` on a dict body: the caller's address is
      stored under "ip" and every other field is kept as submitted. */
  function StampCaller(body: map<string, Value>, ip: string): (r: map<string, Value>)
    ensures r.Keys == body.Keys + {"ip"}
    ensures r["ip"] == Str(ip)
    ensures forall k :: k in body && k != "ip" ==> r[k] == body[k]
  {
    body["ip" := Str(ip)]
  }

  /** A `DataEvent`: the submission it carries to the bot, and the payload
      that `set` stores when the bot replies. The data is fixed before any
      other task can observe the event (no await separates the two). */
  class Event {
    const data: Value
    var payload: Option<Value>

    constructor (data: Value)
      ensures this.data == data && payload == None
    {
      this.data := data;
      payload := None;
    }
  }

  // ---------------------------------------------------------------------
  // Reply normalisation

  /** The text a dict reply is turned into: a Markdown heading line, then
      the description. */
  function ReplyText(title: string, description: string): string {
    "# " + title + "\n" + description
  }

  /** The bot's reply as `setting_reply` normalises it: a dict becomes
      `"# {title}\n{description}"` (a missing key raises KeyError), any other
      value is passed on unchanged. */
  function FormatReply(raw: Value): (r: Result<Value>)
    ensures !raw.Obj? ==> r == Ok(raw)
    ensures raw.Obj? ==> (r.Ok? <==> "title" in raw.fields && "description" in raw.fields)
    ensures raw.Obj? && r.Ok? ==> r.value.Str? && |r.value.s| >= 3 && r.value.s[..2] == "# "
    ensures raw.Obj? && r.Ok? ==>
              r.value == Str(ReplyText(PyStr(raw.fields["title"]), PyStr(raw.fields["description"])))
    ensures r.Err? ==> r.error == KeyError
  {
    if raw.Obj? then
      if "title" in raw.fields && "description" in raw.fields then
        Ok(Str(ReplyText(PyStr(raw.fields["title"]), PyStr(raw.fields["description"]))))
      else
        Err(KeyError)
    else
      Ok(raw)
  }

  /** Position of the first `c` in `s`. */
  function IndexOf(s: string, c: char): (r: Option<nat>)
    ensures r.Some? ==> r.value < |s| && s[r.value] == c && c !in s[..r.value]
    ensures r.None? ==> c !in s
  {
    if s == [] then None
    else if s[0] == c then Some(0)
    else
      match IndexOf(s[1..], c)
      case None => None
      case Some(i) =>
        assert s[..i + 1] == [s[0]] + s[1..][..i];
        Some(i + 1)
  }

  /** Reads a normalised reply text back into its title and description:
      the title runs from after "# " to the first line break. */
  function ParseReply(text: string): Option<(string, string)> {
    if |text| >= 2 && text[..2] == "# " then
      var rest := text[2..];
      match IndexOf(rest, '\n')
      case None => None
      case Some(i) => Some((rest[..i], rest[i + 1..]))
    else
      None
  }

  lemma ReplyTextParses(title: string, description: string)
    requires '\n' !in title
    ensures ParseReply(ReplyText(title, description)) == Some((title, description))
  {
    var text := ReplyText(title, description);
    var rest := title + "\n" + description;
    assert text[..2] == "# " && text[2..] == rest;
    assert rest[|title|] == '\n';
    var found := IndexOf(rest, '\n');
    assert found.Some?;
    var i := found.value;
    assert rest[..i] == title;
    assert rest[i + 1..] == description;
  }

  /** A dict reply with both keys, whose title renders on one line, is
      normalised into a text that gives back the title and description as
      Python's `str()` renders them. A string stands for itself, and any other
      value renders on one line, so only a string title can break it. */
  lemma FormatReplyRoundTrip(raw: Value)
    requires raw.Obj? && "title" in raw.fields && "description" in raw.fields
    requires '\n' !in PyStr(raw.fields["title"])
    ensures FormatReply(raw).Ok? && FormatReply(raw).value.Str?
    ensures ParseReply(FormatReply(raw).value.s)
              == Some((PyStr(raw.fields["title"]), PyStr(raw.fields["description"])))
  {
    ReplyTextParses(PyStr(raw.fields["title"]), PyStr(raw.fields["description"]));
  }

  /** Every text that parses is a normalised reply with a one-line title. */
  lemma ParseReplyInverse(text: string)
    requires ParseReply(text).Some?
    ensures '\n' !in ParseReply(text).value.0
    ensures text == ReplyText(ParseReply(text).value.0, ParseReply(text).value.1)
  {
    var rest := text[2..];
    var i := IndexOf(rest, '\n').value;
    assert rest == rest[..i] + "\n" + rest[i + 1..];
    assert text == text[..2] + rest;
  }

  // ---------------------------------------------------------------------
  // Settings catalogue lookup

  /** `category in s`: a substring test on a Python str. */
  function IsSubstring(needle: string, s: string): bool
    decreases |s|
  {
    needle <= s || (s != [] && IsSubstring(needle, s[1..]))
  }

  /** `get_settings`: `if category in bp.data: return bp.data[category]`,
      else status 400. Python's `in` and `[...]` are followed for every kind
      of catalogue: a dict is looked up by key; a list or a str answers `in`
      but cannot be indexed by a str (TypeError); any other value does not
      support `in` (TypeError). */
  function GetCategory(catalogue: Value, category: string): (r: Result<Value>)
    ensures r.Ok? <==> catalogue.Obj? && category in catalogue.fields
    ensures r.Ok? ==> r.value == catalogue.fields[category]
    ensures catalogue.Obj? && category !in catalogue.fields ==> r == Err(BadRequest)
    ensures r.Err? ==> r.error == BadRequest || r.error == TypeError
  {
    match catalogue
    case Obj(fields) => if category in fields then Ok(fields[category]) else Err(BadRequest)
    case Arr(items) => if Str(category) in items then Err(TypeError) else Err(BadRequest)
    case Str(s) => if IsSubstring(category, s) then Err(TypeError) else Err(BadRequest)
    case _ => Err(TypeError)
  }

  // ---------------------------------------------------------------------
  // The table

  /** The blueprint's shared state: `bp.data`, `bp.queues`, `bp.doing`. */
  class PendingTable {
    /** The settings catalogue, `bp.data`. */
    var data: Value
    /** Submitted requests not yet taken by the bot, `bp.queues`. */
    var queues: map<string, Event>
    /** The keys of `queues` in insertion order, the order in which
        `bp.queues.items()` lists them. */
    var order: seq<string>
    /** Requests the bot has acknowledged, `bp.doing`. */
    var doing: map<string, Event>

    /** `order` lists `queues` exactly once each, and no key is both
        submitted and acknowledged. */
    ghost predicate Valid()
      reads this
    {
      && Distinct(order)
      && Elems(order) == queues.Keys
      && queues.Keys !! doing.Keys
    }

    /** The module-level initialisation: empty catalogue, empty maps. */
    constructor ()
      ensures Valid()
      ensures data == Obj(map[]) && queues == map[] && order == [] && doing == map[]
    {
      data := Obj(map[]);
      queues := map[];
      order := [];
      doing := map[];
    }

    /** `update_settings`: the bot replaces the whole catalogue. */
    method UpdateSettings(catalogue: Value)
      requires Valid()
      modifies this
      ensures Valid()
      ensures data == catalogue
      ensures queues == old(queues) && order == old(order) && doing == old(doing)
    {
      data := catalogue;
    }

    /** `get_settings`: one category of the current catalogue. */
    method GetSettings(category: string) returns (r: Result<Value>)
      ensures r.Ok? <==> data.Obj? && category in data.fields
      ensures r.Ok? ==> r.value == data.fields[category]
      ensures data.Obj? && category !in data.fields ==> r == Err(BadRequest)
      ensures r.Err? ==> r.error == BadRequest || r.error == TypeError
      ensures r == GetCategory(data, category)
    {
      r := GetCategory(data, category);
    }

    /** `setting`: admission of a settings change from caller `ip`.
        A caller with a request in either map is refused with 423 and nothing
        changes. Otherwise a fresh event is appended to `queues`; a dict body
        gets the caller's address under "ip" and the caller goes on to wait
        for the event (`Ok`). Any other body raises TypeError when "ip" is
        stored, after the event is already queued with the body as its data. */
    method Submit(ip: string, body: Value) returns (r: Result<Event>)
      requires Valid()
      modifies this
      ensures Valid()
      ensures data == old(data) && doing == old(doing)
      ensures r == Err(Locked) <==> ip in old(queues) || ip in old(doing)
      ensures r == Err(Locked) ==> queues == old(queues) && order == old(order)
      ensures r != Err(Locked) ==>
        && ip in queues
        && fresh(queues[ip])
        && queues == old(queues)[ip := queues[ip]]
        && order == old(order) + [ip]
        && queues[ip].payload == None
        && (body.Obj? ==> r == Ok(queues[ip]) && queues[ip].data == Obj(StampCaller(body.fields, ip)))
        && (!body.Obj? ==> r == Err(TypeError) && queues[ip].data == body)
    {
      if ip in queues || ip in doing {
        return Err(Locked);
      }
      var stamped := if body.Obj? then Obj(StampCaller(body.fields, ip)) else body;
      var event := new Event(stamped);
      assert ip !in Elems(order);
      assert Elems(order + [ip]) == Elems(order) + {ip};
      DistinctAppend(order, ip);
      queues := queues[ip := event];
      order := order + [ip];
      r := if body.Obj? then Ok(event) else Err(TypeError);
    }

    /** `setting_reply`, with the guard on the table the lookup reads: the
        reply is normalised first (a dict without "title" or "description"
        raises KeyError whatever the key); a key the bot has acknowledged gets
        the reply stored in its event; any other key is NotFound. Removing the
        key from `queues` changes nothing, since an acknowledged key is not
        queued, and the `doing` entry stays where it is. */
    method Reply(ip: string, raw: Value) returns (r: Result<()>)
      requires Valid()
      modifies this, if ip in doing then {doing[ip]} else {}
      ensures Valid()
      ensures data == old(data) && queues == old(queues) && order == old(order) && doing == old(doing)
      ensures FormatReply(raw).Err? ==> r == Err(KeyError)
      ensures FormatReply(raw).Ok? && ip !in doing ==> r == Err(NotFound)
      ensures FormatReply(raw).Ok? && ip in doing ==>
                r == Ok(()) && doing[ip].payload == Some(FormatReply(raw).value)
      ensures r.Err? && ip in doing ==> doing[ip].payload == old(doing[ip].payload)
    {
      var normalised := FormatReply(raw);
      if normalised.Err? {
        return Err(normalised.error);
      }
      if ip in doing {
        doing[ip].payload := Some(normalised.value);
        assert ip !in Elems(order);
        queues := queues - {ip};
        order := Without(order, ip);
        r := Ok(());
      } else {
        r := Err(NotFound);
      }
    }
  }

  // ---------------------------------------------------------------------
  // Draining the table to the bot

  /** The point-in-time copy `list(bp.queues.items())`: each queued key, in
      insertion order, with its event. */
  function Snapshot(t: PendingTable): (s: seq<(string, Event)>)
    reads t
    requires t.Valid()
    ensures |s| == |t.order|
    ensures forall i :: 0 <= i < |s| ==> s[i] == (t.order[i], t.queues[t.order[i]])
    ensures forall k :: k in t.queues <==> exists i :: 0 <= i < |s| && s[i].0 == k
  {
    seq(|t.order|, i requires 0 <= i < |t.order| && t.order[i] in t.queues reads t => (t.order[i], t.queues[t.order[i]]))
  }

  /** The `on_post` messages for a run of snapshot entries, one per entry,
      carrying that entry's data, in order. */
  function Posts(entries: seq<(string, Event)>): (r: seq<Message>)
    ensures |r| == |entries|
    ensures forall i :: 0 <= i < |entries| ==> r[i] == OnPost(entries[i].1.data)
  {
    if entries == [] then [] else [OnPost(entries[0].1.data)] + Posts(entries[1..])
  }

  lemma {:induction false} PostsAppend(entries: seq<(string, Event)>, last: (string, Event))
    ensures Posts(entries + [last]) == Posts(entries) + [OnPost(last.1.data)]
  {
    if entries != [] {
      assert (entries + [last])[1..] == entries[1..] + [last];
      PostsAppend(entries[1..], last);
    }
  }

  /** `entries` copies the first keys of `order` with their events in `queues`. */
  ghost predicate Heads(entries: seq<(string, Event)>, order: seq<string>, queues: map<string, Event>) {
    && |entries| <= |order|
    && forall i :: 0 <= i < |entries| ==> order[i] in queues && entries[i] == (order[i], queues[order[i]])
  }

  /** A key appended to the queue after the snapshot leaves the snapshot's
      entries at the head of the queue. */
  lemma HeadsAppend(entries: seq<(string, Event)>, order: seq<string>, queues: map<string, Event>, ip: string, e: Event)
    requires Heads(entries, order, queues) && ip !in queues
    ensures Heads(entries, order + [ip], queues[ip := e])
  {
    forall i | 0 <= i < |entries|
      ensures (order + [ip])[i] in queues[ip := e]
      ensures entries[i] == ((order + [ip])[i], queues[ip := e][(order + [ip])[i]])
    {
      assert (order + [ip])[i] == order[i];
    }
  }

  /** The entries of a run of the snapshot as a map from key to event. */
  function Moved(entries: seq<(string, Event)>): map<string, Event> {
    if entries == [] then map[]
    else
      var last := entries[|entries| - 1];
      Moved(entries[..|entries| - 1])[last.0 := last.1]
  }

  /** `q` restricted to the keys in `keys`. */
  function Restrict(q: map<string, Event>, keys: set<string>): map<string, Event> {
    map k | k in keys && k in q :: q[k]
  }

  /** Entries copied from `q` along a listing of some of its keys make up
      `q` restricted to those keys. */
  lemma {:induction false} MovedListing(entries: seq<(string, Event)>, order: seq<string>, q: map<string, Event>)
    requires Heads(entries, order, q)
    ensures Moved(entries) == Restrict(q, Elems(order[..|entries|]))
  {
    if entries != [] {
      var n := |entries| - 1;
      MovedListing(entries[..n], order, q);
      assert order[..n + 1] == order[..n] + [order[n]];
      assert Elems(order[..n + 1]) == Elems(order[..n]) + {order[n]};
    }
  }

  lemma RestrictAll(q: map<string, Event>, keys: set<string>)
    requires keys == q.Keys
    ensures Restrict(q, keys) == q && q - keys == map[]
  {
  }

  /** A key added to the table after a snapshot of all its keys does not
      change what the snapshot's keys map to. */
  lemma RestrictAppended(q: map<string, Event>, keys: set<string>, k: string, e: Event)
    requires keys == q.Keys && k !in keys
    ensures Restrict(q[k := e], keys) == q
  {
  }

  // One turn of the drain loop, on the values the loop keeps track of.

  lemma SentStep(s0: seq<Message>, entries: seq<(string, Event)>, i: nat, sent: seq<Message>)
    requires i < |entries| && sent == s0 + Posts(entries[..i])
    ensures sent + [OnPost(entries[i].1.data)] == s0 + Posts(entries[..i + 1])
  {
    assert entries[..i + 1] == entries[..i] + [entries[i]];
    PostsAppend(entries[..i], entries[i]);
  }

  lemma QueuesStep(q0: map<string, Event>, order: seq<string>, i: nat, queues: map<string, Event>)
    requires i < |order| && queues == q0 - Elems(order[..i])
    ensures queues - {order[i]} == q0 - Elems(order[..i + 1])
  {
    assert order[..i + 1] == order[..i] + [order[i]];
    assert Elems(order[..i + 1]) == Elems(order[..i]) + {order[i]};
  }

  lemma DoingStep(d0: map<string, Event>, entries: seq<(string, Event)>, i: nat, doing: map<string, Event>)
    requires i < |entries| && doing == d0 + Moved(entries[..i])
    ensures doing[entries[i].0 := entries[i].1] == d0 + Moved(entries[..i + 1])
  {
    assert entries[..i + 1][..i] == entries[..i];
  }

  /** `SettingsWebSocket`: the bot's connection. `sent` is everything sent
      on it so far; `cursor` is the part of the current drain cycle's
      snapshot still to be offered. */
  class SettingsWebSocket {
    var sent: seq<Message>
    var cursor: seq<(string, Event)>

    constructor ()
      ensures sent == [] && cursor == []
    {
      sent := [];
      cursor := [];
    }

    /** The rest of the snapshot heads the table's queue, each key still
        mapped to the event the snapshot copied. Keys submitted since the
        snapshot come after it. */
    ghost predicate InCycle(t: PendingTable)
      reads this, t
    {
      t.Valid() && Heads(cursor, t.order, t.queues)
    }

    /** `list(bp.queues.items())`: the cycle starts from a copy of the queue. */
    method BeginCycle(t: PendingTable)
      requires t.Valid()
      modifies this
      ensures cursor == Snapshot(t) && sent == old(sent)
      ensures InCycle(t)
    {
      cursor := Snapshot(t);
    }

    /** One turn of the drain loop: offer the next snapshot entry, take the
        bot's acknowledgement (`recv`, whose content is discarded), then move
        the entry from `queues` to `doing` with no await in between. */
    method Step(t: PendingTable)
      requires InCycle(t) && cursor != []
      modifies this, t
      ensures InCycle(t)
      ensures cursor == old(cursor)[1..]
      ensures sent == old(sent) + [OnPost(old(cursor)[0].1.data)]
      ensures t.queues == old(t.queues) - {old(cursor)[0].0}
      ensures t.doing == old(t.doing)[old(cursor)[0].0 := old(cursor)[0].1]
      ensures t.order == old(t.order)[1..]
      ensures t.data == old(t.data)
    {
      var (ip, event) := cursor[0];
      sent := sent + [OnPost(event.data)];
      t.doing := t.doing[ip := event];
      t.queues := t.queues - {ip};
      t.order := Without(t.order, ip);
      cursor := cursor[1..];
      assert forall i :: 0 <= i < |cursor| ==> cursor[i] == old(cursor)[i + 1];
    }

    /** One turn of the drain loop, as the loop accounts for it: after `i`
        turns over the cycle that started from `c0` (the snapshot's rest),
        `o0`, `q0`, `d0` and `s0`, the first `i` entries have moved from
        `queues` to `doing` and been offered, in order. */
    ghost predicate Drained(t: PendingTable, c0: seq<(string, Event)>, o0: seq<string>,
                            q0: map<string, Event>, d0: map<string, Event>, s0: seq<Message>, i: nat)
      reads this, t
    {
      && InCycle(t)
      && i <= |c0| && i <= |o0| && cursor == c0[i..]
      && t.order == o0[i..]
      && t.queues == q0 - Elems(o0[..i])
      && t.doing == d0 + Moved(c0[..i])
      && sent == s0 + Posts(c0[..i])
    }

    method DrainTurn(t: PendingTable, ghost c0: seq<(string, Event)>, ghost o0: seq<string>,
                     ghost q0: map<string, Event>, ghost d0: map<string, Event>, ghost s0: seq<Message>, ghost i: nat)
      requires Drained(t, c0, o0, q0, d0, s0, i) && cursor != []
      requires Heads(c0, o0, q0)
      modifies this, t
      ensures Drained(t, c0, o0, q0, d0, s0, i + 1)
      ensures t.data == old(t.data)
    {
      assert cursor[0] == c0[i] && t.order[0] == o0[i] && c0[i].0 == o0[i];
      SentStep(s0, c0, i, sent);
      QueuesStep(q0, o0, i, t.queues);
      DoingStep(d0, c0, i, t.doing);
      Step(t);
    }

    /** The drain loop over what is left of the snapshot. Every remaining
        entry leaves `queues` and is added to `doing`, mapped to the event the
        snapshot copied; keys submitted after the snapshot stay queued, in
        order; one `on_post` per entry is sent, in snapshot order. */
    method DrainRest(t: PendingTable)
      requires InCycle(t)
      modifies this, t
      ensures InCycle(t) && cursor == []
      ensures t.order == old(t.order)[|old(cursor)|..]
      ensures t.queues == old(t.queues) - Elems(old(t.order)[..|old(cursor)|])
      ensures t.doing == old(t.doing) + Restrict(old(t.queues), Elems(old(t.order)[..|old(cursor)|]))
      ensures sent == old(sent) + Posts(old(cursor))
      ensures t.data == old(t.data)
    {
      ghost var c0, o0, q0, d0, s0 := cursor, t.order, t.queues, t.doing, sent;
      assert Heads(c0, o0, q0);
      ghost var i := 0;
      while cursor != []
        invariant Drained(t, c0, o0, q0, d0, s0, i)
        invariant t.data == old(t.data)
        decreases |cursor|
      {
        DrainTurn(t, c0, o0, q0, d0, s0, i);
        i := i + 1;
      }
      assert c0[..i] == c0 && o0[..i] == o0[..|c0|];
      MovedListing(c0, o0, q0);
    }

    /** `send("on_posted")`: the end of the cycle. */
    method EndCycle()
      requires cursor == []
      modifies this
      ensures cursor == [] && sent == old(sent) + [OnPosted]
    {
      sent := sent + [OnPosted];
    }

    /** `on_ready` once the idle wait is over: snapshot the queue, drain it,
        close the cycle. Nothing runs in between here, so the whole queue
        moves to `doing`. */
    method OnReady(t: PendingTable)
      requires t.Valid()
      modifies this, t
      ensures t.Valid() && cursor == []
      ensures t.queues == map[] && t.order == []
      ensures t.doing == old(t.doing) + old(t.queues)
      ensures sent == old(sent) + Posts(old(Snapshot(t))) + [OnPosted]
      ensures t.data == old(t.data)
    {
      BeginCycle(t);
      ghost var order := t.order;
      DrainRest(t);
      EndCycle();
      assert order[..|order|] == order;
      RestrictAll(old(t.queues), Elems(order));
    }
  }

  // ---------------------------------------------------------------------
  // `setting_reply` as written

  /** `setting_reply` as the source has it: it checks `ip in bp.queues` but
      then reads `bp.doing[ip]`, and on success deletes the whole attribute
      `bp.queues` (the effect is not modelled: the branch is never taken).
      `queued` and `claimed` are the key sets of the two maps. */
  function SettingReplyAsWritten(queued: set<string>, claimed: set<string>, ip: string, raw: Value): (r: Result<()>)
    ensures FormatReply(raw).Err? ==> r == Err(FormatReply(raw).error)
    ensures r.Ok? <==> FormatReply(raw).Ok? && ip in queued && ip in claimed
    ensures FormatReply(raw).Ok? && ip !in queued ==> r == Err(NotFound)
    ensures FormatReply(raw).Ok? && ip in queued && ip !in claimed ==> r == Err(KeyError)
  {
    match FormatReply(raw)
    case Err(e) => Err(e)
    case Ok(_) =>
      if ip in queued then
        if ip in claimed then Ok(()) else Err(KeyError)
      else
        Err(NotFound)
  }

  /** Since no key is in both maps, the source's reply route never succeeds:
      a queued key fails the `bp.doing[ip]` lookup, and an acknowledged key,
      the one a reply is for, is answered NotFound. */
  lemma SettingReplyAsWrittenNeverResolves(queued: set<string>, claimed: set<string>, ip: string, raw: Value)
    requires queued !! claimed
    ensures SettingReplyAsWritten(queued, claimed, ip, raw) != Ok(())
    ensures FormatReply(raw).Ok? && ip in claimed ==>
              SettingReplyAsWritten(queued, claimed, ip, raw) == Err(NotFound)
    ensures FormatReply(raw).Ok? && ip in queued ==>
              SettingReplyAsWritten(queued, claimed, ip, raw) == Err(KeyError)
  {
  }
}
