/** Inbound mail: authentication, dedup, allowlist, routing, storage
    (src/application/service/mail_inbound_service.rs). */
module Inbound {
  import opened Prelude
  import opened Events
  import opened Bytes
  import opened Recipients

  /** A stored message, as far as the gateway looks at it. */
  datatype Row = Row(messageId: Option<string>, model: Option<string>, resId: Option<Uuid>)

  datatype Inbound = Inbound(messageId: Option<string>, sender: string, to: seq<string>, inReplyTo: Option<string>)

  datatype Server = Server(active: bool, tokenHash: seq<Byte>, defaultModel: Option<string>)

  datatype Alias = Alias(forceThread: Option<Uuid>, parentThread: Option<Uuid>)

  /** An allowlist row; without a server it speaks for all of them. */
  datatype Pattern = Pattern(text: string, server: Option<Uuid>)

  /** What the gateway reads but never writes; domain names are in lower case. */
  datatype Directory = Directory(
    servers: map<Uuid, Server>, allowed: set<Pattern>, domains: map<string, Uuid>, aliases: map<(string, Uuid), Alias>)

  datatype Event =
    | Rejected(server: Uuid, sender: string, messageId: Option<string>)
    | Dropped(server: Uuid, sender: string, to: seq<string>)
    | RoutedTo(row: Uuid, model: string, resId: Option<Uuid>)

  datatype Outcome =
    | Routed(row: Uuid, model: string, resId: Option<Uuid>)
    | Duplicate(existing: Uuid)
    | NotAllowed
    | NoRoute

  datatype InboundError = Invalid | Auth

  type Rows = map<Uuid, Row>

  // ---- addresses ----

  function LastAt(s: string): Option<nat> { LastIndex(s, '@') }

  function SplitAddress(address: string): Option<(string, string)> {
    var at := LastAt(address);
    if at.None? then None
    else
      LastIndexSplits(address, '@');
      var local, domain := Lower(Trim(address[..at.value])), Lower(Trim(address[at.value + 1..]));
      if local == "" || domain == "" then None else Some((local, domain))
  }

  /** Splitting undoes joining: any lower-case local part without outer blanks, even one holding
      an `@`, comes back from `local@domain`. */
  lemma SplitOfJoined(local: string, domain: string)
    requires local != "" && domain != "" && '@' !in domain
    requires Lower(Trim(local)) == local && Lower(Trim(domain)) == domain
    ensures SplitAddress(local + ['@'] + domain) == Some((local, domain))
  {
    LastIndexOfJoined(local, '@', domain);
    var s := local + ['@'] + domain;
    assert s[..|local|] == local && s[|local| + 1..] == domain;
  }

  // ---- the allowlist ----

  function DomainOf(sender: string): string {
    var at := LastAt(sender);
    if at.None? then sender else LastIndexSplits(sender, '@'); sender[at.value + 1..]
  }

  /** A row matches the whole address, its domain, or its domain behind an `@`. */
  predicate Allowed(dir: Directory, server: Uuid, sender: string) {
    var address := Lower(Trim(sender));
    exists p :: p in dir.allowed && (p.server.None? || p.server == Some(server))
      && Lower(p.text) in [address, DomainOf(address), "@" + DomainOf(address)]
  }

  // ---- dedup ----

  predicate Has(rows: Rows, messageId: Option<string>, id: Uuid) {
    messageId.Some? && id in rows && rows[id].messageId == messageId
  }

  predicate Stored(rows: Rows, messageId: Option<string>) { exists id :: Has(rows, messageId, id) }

  /** The unique index over message ids that are present. */
  predicate Indexed(rows: Rows) {
    forall a, b :: a in rows && b in rows && Has(rows, rows[a].messageId, b) ==> a == b
  }

  /** The probe finds a row with this message id if there is one. */
  predicate Probed(rows: Rows, messageId: Option<string>, found: Option<Uuid>) {
    if found.Some? then Has(rows, messageId, found.value) else !Stored(rows, messageId)
  }

  // ---- routing ----

  /** A stored message is part of a thread whose model it names. */
  predicate Collates(row: Row, thread: Uuid, model: string) {
    row.resId == Some(thread) && row.model == Some(model)
  }

  predicate Learnable(rows: Rows, thread: Uuid) {
    exists id :: id in rows && rows[id].resId == Some(thread) && rows[id].model.Some?
  }

  /** The model of a thread: that of some message on it, else the server's default. */
  predicate ThreadModel(rows: Rows, thread: Uuid, fallback: Option<string>, model: string) {
    if Learnable(rows, thread) then exists id :: id in rows && Collates(rows[id], thread, model)
    else fallback == Some(model)
  }

  /** The thread an address is an alias for: the forced one, else the alias's parent. */
  function Target(dir: Directory, address: string): Option<Uuid> {
    var parts := SplitAddress(address);
    if parts.None? || parts.value.1 !in dir.domains then None
    else
      var key := (parts.value.0, dir.domains[parts.value.1]);
      if key !in dir.aliases then None
      else if dir.aliases[key].forceThread.Some? then dir.aliases[key].forceThread
      else dir.aliases[key].parentThread
  }

  /** The address leads to a thread with a known model. */
  predicate Lands(rows: Rows, dir: Directory, fallback: Option<string>, address: string) {
    Target(dir, address).Some? && (fallback.Some? || Learnable(rows, Target(dir, address).value))
  }

  predicate FirstLanding(rows: Rows, dir: Directory, fallback: Option<string>, to: seq<string>, i: int) {
    0 <= i < |to| && Lands(rows, dir, fallback, to[i]) && forall j :: 0 <= j < i ==> !Lands(rows, dir, fallback, to[j])
  }

  predicate IsParent(rows: Rows, msg: Inbound, id: Uuid) {
    Has(rows, msg.inReplyTo, id) && rows[id].model.Some?
  }

  /** The ladder: the thread of the parent message; else the first recipient, in order, that
      leads to a thread with a known model; else the server default with no record. */
  ghost predicate Ladder(rows: Rows, dir: Directory, fallback: Option<string>, msg: Inbound, model: Option<string>,
      resId: Option<Uuid>) {
    if exists id :: IsParent(rows, msg, id) then
      exists id :: IsParent(rows, msg, id) && model == rows[id].model && resId == rows[id].resId
    else if exists i :: FirstLanding(rows, dir, fallback, msg.to, i) then
      exists i :: FirstLanding(rows, dir, fallback, msg.to, i)
        && resId == Target(dir, msg.to[i]) && model.Some? && ThreadModel(rows, resId.value, fallback, model.value)
    else model == fallback && resId == None
  }

  lemma {:induction false} FindFirstLanding(rows: Rows, dir: Directory, fallback: Option<string>, to: seq<string>)
    ensures (exists i :: FirstLanding(rows, dir, fallback, to, i)) <==>
      exists a :: a in to && Lands(rows, dir, fallback, a)
  {
    if i :| FirstLanding(rows, dir, fallback, to, i) {
      assert to[i] in to;
    }
    if to != [] && exists a :: a in to && Lands(rows, dir, fallback, a) {
      var init, last := to[..|to| - 1], to[|to| - 1];
      assert to == init + [last];
      FindFirstLanding(rows, dir, fallback, init);
      if i :| FirstLanding(rows, dir, fallback, init, i) {
        assert FirstLanding(rows, dir, fallback, to, i);
      } else {
        assert forall j :: 0 <= j < |init| ==> to[j] in init;
        assert FirstLanding(rows, dir, fallback, to, |init|);
      }
    }
  }

  /** A message is unroutable exactly when it answers nothing that names a model, no recipient
      leads to a thread with a known model, and the server has no default. */
  lemma UnroutableIff(rows: Rows, dir: Directory, fallback: Option<string>, msg: Inbound, model: Option<string>,
      resId: Option<Uuid>)
    requires Ladder(rows, dir, fallback, msg, model, resId)
    ensures model.None? <==>
      && fallback.None?
      && (forall id :: !IsParent(rows, msg, id))
      && (forall a :: a in msg.to ==> !Lands(rows, dir, fallback, a))
  {
    FindFirstLanding(rows, dir, fallback, msg.to);
  }

  /** Messages on one thread name one model. */
  predicate OneModelPerThread(rows: Rows) {
    forall a, b :: a in rows && b in rows && rows[a].resId.Some? && rows[a].resId == rows[b].resId
                   && rows[a].model.Some? && rows[b].model.Some? ==>
      rows[a].model == rows[b].model
  }

  /** Where every thread has one model the ladder has one answer. */
  lemma LadderIsDeterministic(rows: Rows, dir: Directory, fallback: Option<string>, msg: Inbound,
                              m1: Option<string>, r1: Option<Uuid>, m2: Option<string>, r2: Option<Uuid>)
    requires Indexed(rows) && OneModelPerThread(rows)
    requires Ladder(rows, dir, fallback, msg, m1, r1) && Ladder(rows, dir, fallback, msg, m2, r2)
    ensures m1 == m2 && r1 == r2
  {
  }

  // ---- storing ----

  /** The insert, and the index: a second row with a message id in use is refused. */
  function Inserted(rows: Rows, id: Uuid, row: Row): Rows {
    if Stored(rows, row.messageId) then rows else rows[id := row]
  }

  lemma InsertKeepsIndex(rows: Rows, id: Uuid, row: Row)
    requires Indexed(rows) && id !in rows
    ensures Indexed(Inserted(rows, id, row))
  {
    var after := Inserted(rows, id, row);
    if !Stored(rows, row.messageId) {
      forall x | x in rows
        ensures row.messageId.Some? ==> rows[x].messageId != row.messageId
      {
        assert !Has(rows, row.messageId, x);
      }
      forall a, b | a in after && b in after && Has(after, after[a].messageId, b)
        ensures a == b
      {
        if a != id && b != id {
          assert Has(rows, rows[a].messageId, b);
        }
      }
    }
  }

  class MailInboundService {
    const dir: Directory
    var rows: Rows
    var events: seq<Event>
    var lastSuccess: set<Uuid>

    constructor (dir: Directory, rows: Rows)
      ensures this.dir == dir && this.rows == rows && events == [] && lastSuccess == {}
    {
      this.dir, this.rows, events, lastSuccess := dir, rows, [], {};
    }

    method FindByMessageId(messageId: string) returns (found: Option<Uuid>)
      ensures Probed(rows, Some(messageId), found)
    {
      if id :| id in rows && rows[id].messageId == Some(messageId) {
        assert Has(rows, Some(messageId), id);
        return Some(id);
      }
      return None;
    }

    method FindParentThread(msg: Inbound) returns (thread: Option<(Option<string>, Option<Uuid>)>)
      ensures thread.None? <==> forall id :: !IsParent(rows, msg, id)
      ensures thread.Some? ==> exists id :: IsParent(rows, msg, id) && thread.value == (rows[id].model, rows[id].resId)
    {
      if msg.inReplyTo.None? { return None; }
      if id :| id in rows && rows[id].messageId == msg.inReplyTo && rows[id].model.Some? {
        assert IsParent(rows, msg, id);
        return Some((rows[id].model, rows[id].resId));
      }
      return None;
    }

    /** Any message on the thread that names a model will do. */
    method LearnThreadModel(thread: Uuid) returns (model: Option<string>)
      ensures model.Some? <==> Learnable(rows, thread)
      ensures model.Some? ==> exists id :: id in rows && Collates(rows[id], thread, model.value)
    {
      if id :| id in rows && rows[id].resId == Some(thread) && rows[id].model.Some? {
        assert Collates(rows[id], thread, rows[id].model.value);
        return rows[id].model;
      }
      return None;
    }

    method Route(fallback: Option<string>, msg: Inbound) returns (model: Option<string>, resId: Option<Uuid>)
      ensures Ladder(rows, dir, fallback, msg, model, resId)
    {
      var parent := FindParentThread(msg);
      if parent.Some? { return parent.value.0, parent.value.1; }
      for i := 0 to |msg.to|
        invariant forall j :: 0 <= j < i ==> !Lands(rows, dir, fallback, msg.to[j])
      {
        var parts := SplitAddress(msg.to[i]);
        if parts.None? || parts.value.1 !in dir.domains { continue; }
        var key := (parts.value.0, dir.domains[parts.value.1]);
        if key !in dir.aliases { continue; }
        var alias := dir.aliases[key];
        var target := if alias.forceThread.Some? then alias.forceThread else alias.parentThread;
        assert target == Target(dir, msg.to[i]);
        if target.Some? {
          var learned := LearnThreadModel(target.value);
          var found := if learned.Some? then learned else fallback;
          if found.Some? {
            assert FirstLanding(rows, dir, fallback, msg.to, i);
            assert ThreadModel(rows, target.value, fallback, found.value);
            return found, target;
          }
        }
      }
      return fallback, None;
    }

    /** One message through the gateway. Refused for form or for authentication it changes
        nothing, and authentication fails the same way whatever is wrong. Past that point: a known
        message id answers with its row and changes nothing; a sender not allowed or a message
        without a route leaves one event and no row; anything else leaves one row with its
        event, on the thread the ladder names. */
    method ProcessInbound(server: Uuid, token: seq<Byte>, hash: seq<Byte> -> seq<Byte>, msg: Inbound, id: Uuid)
        returns (r: Result<Outcome, InboundError>)
      requires Indexed(rows) && id !in rows
      modifies this`rows, this`events, this`lastSuccess
      ensures Indexed(rows)
      ensures r == Err(Invalid) <==> Trim(msg.sender) == "" || msg.to == []
      ensures r.Ok? <==> Trim(msg.sender) != "" && msg.to != [] && Authentic(dir, server, token, hash)
      ensures r.Ok? && r.value.Duplicate? <==> r.Ok? && Stored(old(rows), msg.messageId)
      ensures r.Ok? && r.value.NotAllowed? <==>
        r.Ok? && !Stored(old(rows), msg.messageId) && !Allowed(dir, server, msg.sender)
      ensures r.Err? || r.value.Duplicate? ==>
        rows == old(rows) && events == old(events) && lastSuccess == old(lastSuccess)
      ensures r.Ok? && r.value.Duplicate? ==> Has(rows, msg.messageId, r.value.existing)
      ensures r == Ok(NotAllowed) ==>
        rows == old(rows) && events == old(events) + [Rejected(server, msg.sender, msg.messageId)]
      ensures r == Ok(NoRoute) ==>
        && rows == old(rows) && events == old(events) + [Dropped(server, msg.sender, msg.to)]
        && Ladder(old(rows), dir, dir.servers[server].defaultModel, msg, None, None)
      ensures r.Ok? && r.value.Routed? ==>
        && r.value.row == id
        && Ladder(old(rows), dir, dir.servers[server].defaultModel, msg, Some(r.value.model), r.value.resId)
        && rows == old(rows)[id := Row(msg.messageId, Some(r.value.model), r.value.resId)]
        && events == old(events) + [RoutedTo(id, r.value.model, r.value.resId)]
        && lastSuccess == old(lastSuccess) + {server}
    {
      if Trim(msg.sender) == "" || msg.to == [] { return Err(Invalid); }
      if server !in dir.servers || !dir.servers[server].active { return Err(Auth); }
      var equal := ConstEq(hash(token), LowerBytes(dir.servers[server].tokenHash));
      if !equal { return Err(Auth); }
      if msg.messageId.Some? {
        var found := FindByMessageId(msg.messageId.value);
        if found.Some? {
          assert Has(rows, msg.messageId, found.value);
          return Ok(Duplicate(found.value));
        }
      }
      assert !Stored(rows, msg.messageId);
      if !Allowed(dir, server, msg.sender) {
        events := events + [Rejected(server, msg.sender, msg.messageId)];
        return Ok(NotAllowed);
      }
      var model, resId := Route(dir.servers[server].defaultModel, msg);
      if model.None? {
        NoModelNoRecord(rows, dir, dir.servers[server].defaultModel, msg, resId);
        events := events + [Dropped(server, msg.sender, msg.to)];
        return Ok(NoRoute);
      }
      InsertKeepsIndex(rows, id, Row(msg.messageId, model, resId));
      rows := Inserted(rows, id, Row(msg.messageId, model, resId));
      events := events + [RoutedTo(id, model.value, resId)];
      lastSuccess := lastSuccess + {server};
      return Ok(Routed(id, model.value, resId));
    }
  }

  function LowerByte(b: Byte): Byte { if 65 <= b <= 90 then b + 32 else b }

  function LowerBytes(s: seq<Byte>): seq<Byte> {
    seq(|s|, i requires 0 <= i < |s| => LowerByte(s[i]))
  }

  /** The server exists, is active, and stores the token's digest, in either case. */
  predicate Authentic(dir: Directory, server: Uuid, token: seq<Byte>, hash: seq<Byte> -> seq<Byte>) {
    && server in dir.servers && dir.servers[server].active
    && hash(token) == LowerBytes(dir.servers[server].tokenHash)
  }

  lemma NoModelNoRecord(rows: Rows, dir: Directory, fallback: Option<string>, msg: Inbound, resId: Option<Uuid>)
    requires Ladder(rows, dir, fallback, msg, None, resId)
    ensures resId == None
  {
  }
}
