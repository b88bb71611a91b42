/** Whole exchanges between callers, the table and the bot's websocket,
    proved from the operations' contracts alone. */
module Scenarios {
  import opened Json
  import opened Dashboard

  /** A caller at 1.2.3.4 asks for `ping`; the bot drains the table,
      acknowledges, and answers "pong". The caller's event holds "pong", the
      bot saw one offer carrying the caller's address and one end marker, and
      a second request from the same address is refused with 423, because the
      acknowledged entry is never removed. */
  method PingPong() returns (answer: Option<Value>, retry: Result<Event>, sent: seq<Message>)
    ensures answer == Some(Str("pong"))
    ensures retry == Err(Locked)
    ensures sent == [
      OnPost(Obj(map[
        "command" := Str("ping"), "kwargs" := Obj(map[]), "guild_id" := Int(0),
        "user_id" := Int(1), "channel_id" := Int(0), "ip" := Str("1.2.3.4")])),
      OnPosted]
  {
    var t := new PendingTable();
    var ws := new SettingsWebSocket();
    var body := Obj(map[
      "command" := Str("ping"), "kwargs" := Obj(map[]), "guild_id" := Int(0),
      "user_id" := Int(1), "channel_id" := Int(0)]);
    var submitted := t.Submit("1.2.3.4", body);
    var event := submitted.value;
    ws.OnReady(t);
    assert t.doing == map["1.2.3.4" := event];
    var replied := t.Reply("1.2.3.4", Str("pong"));
    answer := event.payload;
    retry := t.Submit("1.2.3.4", body);
    sent := ws.sent;
  }

  /** A reply in the bot's dict form reaches the caller as one text, and an
      address with nothing acknowledged gets 404 without any change. */
  method DictReply(title: string, description: string) returns (answer: Option<Value>, stray: Result<()>)
    requires '\n' !in title
    ensures answer.Some? && answer.value.Str?
    ensures ParseReply(answer.value.s) == Some((title, description))
    ensures stray == Err(NotFound)
  {
    var t := new PendingTable();
    var ws := new SettingsWebSocket();
    var submitted := t.Submit("10.0.0.1", Obj(map["command" := Str("help")]));
    var event := submitted.value;
    ws.OnReady(t);
    var raw := Obj(map["title" := Str(title), "description" := Str(description)]);
    FormatReplyRoundTrip(raw);
    var replied := t.Reply("10.0.0.1", raw);
    answer := event.payload;
    stray := t.Reply("10.0.0.2", Str("x"));
  }

  /** A submission that arrives while a drain cycle is under way (here,
      right after the snapshot is taken) is not part of that cycle: it is
      still queued when the cycle ends, as the only queued key, while every
      key of the snapshot has moved to `doing`. */
  method LateSubmission(t: PendingTable, ws: SettingsWebSocket, ip: string, body: Value)
    returns (r: Result<Event>)
    requires t.Valid() && ip !in t.queues && ip !in t.doing
    modifies t, ws
    ensures r != Err(Locked)
    ensures t.Valid() && t.order == [ip] && ip in t.queues && ip !in t.doing
    ensures t.doing == old(t.doing) + old(t.queues)
    ensures ws.sent == old(ws.sent) + Posts(old(Snapshot(t))) + [OnPosted]
  {
    ws.BeginCycle(t);
    ghost var snapshot, order, queues, doing := ws.cursor, t.order, t.queues, t.doing;
    r := t.Submit(ip, body);
    ghost var e := t.queues[ip];
    HeadsAppend(snapshot, order, queues, ip, e);
    ws.DrainRest(t);
    ws.EndCycle();
    assert (order + [ip])[..|snapshot|] == order;
    assert (order + [ip])[|snapshot|..] == [ip];
    RestrictAppended(queues, Elems(order), ip, e);
  }
}
