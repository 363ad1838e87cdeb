/**
 Session ticket keys: two keys that take turns, tickets written under the active
 one and parsed under either, and the layout of a ticket.
 */
module Tickets {
  import opened Basics

  const NAME_BYTES: nat := 4
  const IV_BYTES: nat := 12
  const TAG_BYTES: nat := 16
  const AAD_BYTES: nat := 18
  const MIN_LEN: nat := 34

  // A key slot; `secret` names the key material held by the crypto library.
  datatype Key = Key(name: seq<byte>, secret: int, generation: int, lifetime: nat)

  datatype Keys = Keys(slots: seq<Key>, active: nat, lifetime: nat)

  datatype Fault = NoFault | DestroyFails | NameFails | RandomFails | ImportFails

  // What a call gets from its surroundings: the clock when the key is checked and
  // when a new one is stamped, and the new key's name and material.
  datatype Env = Env(check: int, stamp: int, name: seq<byte>, secret: int, fault: Fault)

  ghost predicate Shaped(k: Keys) {
    |k.slots| == 2 && k.active < 2 && forall i | 0 <= i < 2 :: |k.slots[i].name| == NAME_BYTES
  }

  // -------------------------------------------------------------------------
  // ssl_ticket_gen_key and ssl_ticket_update_keys

  function GenKey(k: Keys, i: nat, e: Env): (Keys, bool)
    requires i < |k.slots|
  {
    var stamped := k.slots[i].(generation := e.stamp, lifetime := k.lifetime);
    if e.fault == NameFails then (k.(slots := k.slots[i := stamped]), false)
    else
      var named := stamped.(name := e.name);
      if e.fault == RandomFails || e.fault == ImportFails then (k.(slots := k.slots[i := named]), false)
      else (k.(slots := k.slots[i := named.(secret := e.secret)]), true)
  }

  predicate Current(key: Key, now: int) {
    key.lifetime == 0 || (now >= key.generation && now - key.generation < key.lifetime)
  }

  function Update(k: Keys, e: Env): (r: (Keys, bool))
    requires |k.slots| == 2 && k.active < 2
    ensures |r.0.slots| == 2 && r.0.active < 2 && r.0.lifetime == k.lifetime
  {
    if Current(k.slots[k.active], e.check) then (k, true)
    else
      var flipped := k.(active := 1 - k.active);
      if e.fault == DestroyFails then (flipped, false) else GenKey(flipped, flipped.active, e)
  }

  // ssl_ticket_select_key
  function Select(k: Keys, name: seq<byte>): Option<Key>
    requires |k.slots| == 2
  {
    if k.slots[0].name == name then Some(k.slots[0])
    else if k.slots[1].name == name then Some(k.slots[1])
    else None
  }

  /** An update changes nothing while the active key is young or has no lifetime.  Else
      the other slot becomes the active one and nothing else is touched; it gets a key
      of the new name, material and time with the configured lifetime unless something
      fails, and the update succeeds exactly then. */
  lemma UpdateExactly(k: Keys, e: Env)
    requires |k.slots| == 2 && k.active < 2
    ensures var (v, ok) := Update(k, e); var old_, other := k.slots[k.active], 1 - k.active;
            var young := old_.lifetime == 0 || old_.generation <= e.check < old_.generation + old_.lifetime;
            && (ok <==> young || e.fault == NoFault)
            && (young ==> v == k)
            && (!young ==> v.active == other && v.slots[k.active] == old_ && v.lifetime == k.lifetime)
            && (!young && e.fault == NoFault ==> v.slots[other] == Key(e.name, e.secret, e.stamp, k.lifetime))
            && (!young && e.fault == DestroyFails ==> v.slots[other] == k.slots[other])
            && (!young && !ok ==> v.slots[other].secret == k.slots[other].secret)
            && (!young && (e.fault == RandomFails || e.fault == ImportFails) ==>
                  v.slots[other] == Key(e.name, k.slots[other].secret, e.stamp, k.lifetime))
            && (!young && e.fault == NameFails ==>
                  v.slots[other] == Key(k.slots[other].name, k.slots[other].secret, e.stamp, k.lifetime))
  {
  }

  /** After a successful update the active key is younger than its lifetime, so no
      ticket is ever written under an older one. */
  lemma WritesUnderFreshKey(k: Keys, e: Env)
    requires Shaped(k) && e.stamp >= e.check && Update(k, e).1
    ensures var v := Update(k, e).0; var key := v.slots[v.active];
            key.lifetime == 0 || e.check - key.generation < key.lifetime
  {
  }

  // -------------------------------------------------------------------------
  // Availability

  // Calls in clock order, without faults, whose new keys do not reuse the name.
  ghost predicate Orderly(calls: seq<Env>, since: int, name: seq<byte>)
    decreases |calls|
  {
    calls == [] ||
    (var e := calls[0];
     since <= e.check <= e.stamp && e.fault == NoFault && e.name != name && |e.name| == NAME_BYTES && Orderly(calls[1..], e.stamp, name))
  }

  ghost function Run(k: Keys, calls: seq<Env>): (v: Keys)
    requires |k.slots| == 2 && k.active < 2
    ensures |v.slots| == 2 && v.active < 2
    decreases |calls|
  {
    if calls == [] then k else Run(Update(k, calls[0]).0, calls[1..])
  }

  ghost predicate Before(calls: seq<Env>, deadline: int) {
    forall i | 0 <= i < |calls| :: calls[i].check <= deadline
  }

  // K is the active key and young at t, or it has been succeeded after t.
  ghost predicate Keeps(k: Keys, key: Key, t: int, now: int) {
    && Shaped(k) && k.lifetime == key.lifetime > 0
    && var active, other := k.slots[k.active], k.slots[1 - k.active];
       || (active == key && other.name != key.name && t - key.generation < key.lifetime && key.generation <= now)
       || (other == key && active.name != key.name && t < active.generation <= now && active.lifetime == key.lifetime)
  }

  lemma KeepsFinds(k: Keys, key: Key, t: int, now: int)
    requires Keeps(k, key, t, now)
    ensures Select(k, key.name) == Some(key)
  {
  }

  lemma UpdateKeeps(k: Keys, key: Key, t: int, now: int, e: Env)
    requires Keeps(k, key, t, now) && now <= e.check <= e.stamp && e.fault == NoFault && e.name != key.name && |e.name| == NAME_BYTES
    requires e.check <= t + key.lifetime
    ensures Keeps(Update(k, e).0, key, t, e.stamp) && Update(k, e).1
  {
  }

  lemma {:induction false} RunKeeps(k: Keys, key: Key, t: int, now: int, calls: seq<Env>)
    requires Keeps(k, key, t, now) && Orderly(calls, now, key.name) && Before(calls, t + key.lifetime)
    ensures Select(Run(k, calls), key.name) == Some(key)
    decreases |calls|
  {
    if calls == [] {
      KeepsFinds(k, key, t, now);
    } else {
      var e := calls[0];
      UpdateKeeps(k, key, t, now, e);
      forall i | 0 <= i < |calls[1..]| ensures calls[1..][i].check <= t + key.lifetime {
        assert calls[1..][i] == calls[i + 1];
      }
      RunKeeps(Update(k, e).0, key, t, e.stamp, calls[1..]);
    }
  }

  // What setup establishes and every undisturbed call keeps.
  ghost predicate Ready(k: Keys, now: int) {
    && Shaped(k) && k.lifetime > 0 && k.slots[0].name != k.slots[1].name
    && forall i | 0 <= i < 2 :: k.slots[i].lifetime == k.lifetime && k.slots[i].generation <= now
  }

  // mbedtls_ssl_ticket_setup: both keys are generated, the first is active.
  function Setup(blank: Keys, lifetime: nat, e: Env, f: Env): (r: (Keys, bool))
    requires |blank.slots| == 2
    ensures |r.0.slots| == 2 && r.0.lifetime == lifetime && r.0.active == blank.active
  {
    var first := GenKey(blank.(lifetime := lifetime), 0, e);
    if first.1 then GenKey(first.0, 1, f) else first
  }

  // Calls in clock order without faults; no new key has the name of one that is
  // then in use.
  ghost predicate Undisturbed(k: Keys, calls: seq<Env>, since: int)
    requires |k.slots| == 2 && k.active < 2
    decreases |calls|
  {
    calls == [] ||
    (var e := calls[0];
     && since <= e.check <= e.stamp && e.fault == NoFault && |e.name| == NAME_BYTES
     && e.name != k.slots[k.active].name && Undisturbed(Update(k, e).0, calls[1..], e.stamp))
  }

  lemma SetupReady(blank: Keys, lifetime: nat, e: Env, f: Env)
    requires |blank.slots| == 2 && blank.active == 0 && lifetime > 0 && e.stamp <= f.stamp && e.name != f.name
    requires |e.name| == |f.name| == NAME_BYTES && e.fault == f.fault == NoFault
    ensures Setup(blank, lifetime, e, f).1 && Ready(Setup(blank, lifetime, e, f).0, f.stamp)
  {
  }

  /** Setup succeeds exactly if both keys can be made, and then both are new; the first
      failure ends it. */
  lemma SetupExactly(blank: Keys, lifetime: nat, e: Env, f: Env)
    requires |blank.slots| == 2
    ensures var (k, ok) := Setup(blank, lifetime, e, f);
            && (ok <==> Makes(e) && Makes(f)) && k.lifetime == lifetime && k.active == blank.active
            && (Makes(e) ==> k.slots[0] == Key(e.name, e.secret, e.stamp, lifetime))
            && (ok ==> k.slots[1] == Key(f.name, f.secret, f.stamp, lifetime))
            && (!Makes(e) ==> k.slots[1] == blank.slots[1] && k.slots[0].secret == blank.slots[0].secret)
  {
  }

  // A key can be made.
  predicate Makes(e: Env) {
    e.fault == NoFault || e.fault == DestroyFails
  }

  lemma UpdateReady(k: Keys, e: Env, now: int)
    requires Ready(k, now) && now <= e.check <= e.stamp && e.fault == NoFault && |e.name| == NAME_BYTES && e.name != k.slots[k.active].name
    ensures Update(k, e).1 && Ready(Update(k, e).0, e.stamp)
    ensures var v := Update(k, e).0; var key := v.slots[v.active];
            Keeps(v, key, e.check, e.stamp) && key.lifetime == k.lifetime
  {
  }

  // The clock after the last call.
  ghost function Clock(calls: seq<Env>, since: int): int {
    if calls == [] then since else calls[|calls| - 1].stamp
  }

  lemma {:induction false} RunReady(k: Keys, calls: seq<Env>, now: int)
    requires Ready(k, now) && Undisturbed(k, calls, now)
    ensures Ready(Run(k, calls), Clock(calls, now))
    decreases |calls|
  {
    if calls != [] {
      UpdateReady(k, calls[0], now);
      RunReady(Update(k, calls[0]).0, calls[1..], calls[0].stamp);
      assert Clock(calls[1..], calls[0].stamp) == Clock(calls, now);
    }
  }

  // A write after any history, and the key it used.
  ghost predicate Writes(k: Keys, now: int, earlier: seq<Env>, write: Env) {
    Ready(k, now) && Undisturbed(k, earlier + [write], now)
  }

  lemma {:induction false} HistorySplits(k: Keys, earlier: seq<Env>, write: Env, now: int)
    requires |k.slots| == 2 && k.active < 2 && Undisturbed(k, earlier + [write], now)
    ensures Undisturbed(k, earlier, now) && Undisturbed(Run(k, earlier), [write], Clock(earlier, now))
    decreases |earlier|
  {
    if earlier == [] {
      assert earlier + [write] == [write];
    } else {
      var e := earlier[0];
      assert (earlier + [write])[0] == e && (earlier + [write])[1..] == earlier[1..] + [write];
      HistorySplits(Update(k, e).0, earlier[1..], write, e.stamp);
      assert Clock(earlier[1..], e.stamp) == Clock(earlier, now);
    }
  }

  /** After any undisturbed history, a ticket written by a call that read the clock
      at t finds its key again at every later call that reads it no later than t
      plus the lifetime, whatever rotations the calls in between (and that call
      itself) cause. */
  lemma TicketsStayReadable(k: Keys, now: int, earlier: seq<Env>, write: Env, later: seq<Env>)
    requires Writes(k, now, earlier, write)
    requires var v := Update(Run(k, earlier), write).0;
             Orderly(later, write.stamp, v.slots[v.active].name) && Before(later, write.check + k.lifetime)
    ensures var v := Update(Run(k, earlier), write).0; var key := v.slots[v.active];
            Select(Run(v, later), key.name) == Some(key) && |key.name| == NAME_BYTES && key.lifetime == k.lifetime
  {
    HistorySplits(k, earlier, write, now);
    RunReady(k, earlier, now);
    RunLifetime(k, earlier);
    UpdateReady(Run(k, earlier), write, Clock(earlier, now));
    var v := Update(Run(k, earlier), write).0;
    RunKeeps(v, v.slots[v.active], write.check, write.stamp, later);
  }

  lemma {:induction false} RunLifetime(k: Keys, calls: seq<Env>)
    requires |k.slots| == 2 && k.active < 2
    ensures Run(k, calls).lifetime == k.lifetime
    decreases |calls|
  {
    if calls != [] {
      RunLifetime(Update(k, calls[0]).0, calls[1..]);
    }
  }

  // -------------------------------------------------------------------------
  // Layout

  // Cryptography and session serialization, as ideal functions.
  datatype Crypto = Crypto(seal: (int, seq<byte>, seq<byte>, seq<byte>) -> seq<byte>,
                           open: (int, seq<byte>, seq<byte>, seq<byte>) -> Option<seq<byte>>)

  datatype Session = Session(id: int, created: int)

  datatype Codec = Codec(save: Session -> seq<byte>, load: seq<byte> -> Option<Session>)

  ghost predicate Ideal(c: Crypto) {
    forall key, iv, aad, text ::
      |c.seal(key, iv, aad, text)| == |text| + TAG_BYTES && c.open(key, iv, aad, c.seal(key, iv, aad, text)) == Some(text)
  }

  ghost predicate Faithful(c: Codec) {
    forall s :: c.load(c.save(s)) == Some(s)
  }

  function High(n: nat): byte
    requires n < 65536
  {
    n / 256
  }

  function Low(n: nat): byte {
    n % 256
  }

  function Uint16(high: byte, low: byte): (n: nat)
    ensures n < 65536
  {
    high * 256 + low
  }

  function Header(key: Key, iv: seq<byte>, n: nat): seq<byte>
    requires n < 65536
  {
    key.name + iv + [High(n), Low(n)]
  }

  function Ticket(c: Crypto, key: Key, iv: seq<byte>, state: seq<byte>): seq<byte>
    requires |state| < 65536
  {
    var header := Header(key, iv, |state|);
    header + c.seal(key.secret, iv, header, state)
  }

  datatype Parsed = Loaded(session: Session) | BadInput | Expired | NotAuthentic | WrongLength | NotLoadable | KeyError

  // The part of mbedtls_ssl_ticket_parse after the update of the keys.
  function Parse(c: Crypto, d: Codec, k: Keys, ticket: seq<byte>, nowMs: int): Parsed
    requires |k.slots| == 2 && |ticket| >= MIN_LEN
  {
    var n := Uint16(ticket[16], ticket[17]);
    if |ticket| != MIN_LEN + n then BadInput
    else
      var key := Select(k, ticket[..4]);
      if key.None? then Expired
      else
        var clear := c.open(key.value.secret, ticket[4..16], ticket[..18], ticket[18..]);
        if clear.None? then NotAuthentic
        else if |clear.value| != n then WrongLength
        else
          var session := d.load(clear.value);
          if session.None? then NotLoadable
          else
            var age := nowMs - session.value.created;
            if age < 0 || age > key.value.lifetime * 1000 then Expired else Loaded(session.value)
  }

  // The i-th key is the first with the ticket's name.
  ghost predicate Names(k: Keys, ticket: seq<byte>, i: int) {
    0 <= i < |k.slots| && |ticket| >= 4 && k.slots[i].name == ticket[..4] && forall j | 0 <= j < i :: k.slots[j].name != ticket[..4]
  }

  // The length field agrees with the length.
  ghost predicate Measured(ticket: seq<byte>) {
    && |ticket| >= MIN_LEN
    && var high: int, low: int := ticket[16], ticket[17];
       |ticket| == MIN_LEN + 256 * high + low
  }

  // The ciphertext and everything before it are authentic under the i-th key.
  ghost predicate Opens(c: Crypto, k: Keys, ticket: seq<byte>, i: int, text: seq<byte>) {
    Measured(ticket) && Names(k, ticket, i) && c.open(k.slots[i].secret, ticket[4..16], ticket[..18], ticket[18..]) == Some(text)
  }

  ghost predicate Carries(c: Crypto, d: Codec, k: Keys, ticket: seq<byte>, i: int, text: seq<byte>, s: Session) {
    Opens(c, k, ticket, i, text) && |text| == |ticket| - MIN_LEN && d.load(text) == Some(s)
  }

  predicate Young(lifetime: nat, s: Session, nowMs: int) {
    s.created <= nowMs <= s.created + 1000 * lifetime
  }

  /** What parse answers for every byte string, and when: it loads a session exactly if
      the length field is right, the text that is authentic under the key of that name
      has that length and loads as that session, and the session is within that key's
      lifetime; and each refusal has its own exact reason. */
  lemma ParseExactly(c: Crypto, d: Codec, k: Keys, ticket: seq<byte>, nowMs: int)
    requires |k.slots| == 2 && |ticket| >= MIN_LEN
    ensures var r := Parse(c, d, k, ticket, nowMs);
            && (forall s :: r == Loaded(s) <==> exists i, text :: Carries(c, d, k, ticket, i, text, s) && Young(k.slots[i].lifetime, s, nowMs))
            && (r == BadInput <==> !Measured(ticket))
            && (r == NotAuthentic <==> Measured(ticket) && exists i :: Names(k, ticket, i) && forall text :: !Opens(c, k, ticket, i, text))
            && (r == WrongLength <==> exists i, text :: Opens(c, k, ticket, i, text) && |text| != |ticket| - MIN_LEN)
            && (r == NotLoadable <==> exists i, text :: Opens(c, k, ticket, i, text) && |text| == |ticket| - MIN_LEN && d.load(text) == None)
            && (r == Expired <==> Measured(ticket) && ((forall i :: !Names(k, ticket, i))
                                  || exists i, text, s :: Carries(c, d, k, ticket, i, text, s) && !Young(k.slots[i].lifetime, s, nowMs)))
            && r != KeyError
  {
    NamedOnce(k, ticket);
    var key := Select(k, ticket[..4]);
    if Measured(ticket) && key.Some? {
      var i := if k.slots[0].name == ticket[..4] then 0 else 1;
      assert Names(k, ticket, i) && k.slots[i] == key.value;
      var clear := c.open(key.value.secret, ticket[4..16], ticket[..18], ticket[18..]);
      if clear.Some? {
        assert Opens(c, k, ticket, i, clear.value);
        if |clear.value| == |ticket| - MIN_LEN && d.load(clear.value).Some? {
          assert Carries(c, d, k, ticket, i, clear.value, d.load(clear.value).value);
        }
      }
    }
  }

  lemma NamedOnce(k: Keys, ticket: seq<byte>)
    requires |k.slots| == 2 && |ticket| >= 4
    ensures forall i, j | Names(k, ticket, i) && Names(k, ticket, j) :: i == j
    ensures Select(k, ticket[..4]).None? <==> forall i :: !Names(k, ticket, i)
    ensures forall i | Names(k, ticket, i) :: Select(k, ticket[..4]) == Some(k.slots[i])
  {
    if k.slots[0].name == ticket[..4] {
      assert Names(k, ticket, 0);
    } else if k.slots[1].name == ticket[..4] {
      assert Names(k, ticket, 1);
    }
  }

  // Nothing is authentic but what was sealed.
  ghost predicate Authentic(c: Crypto) {
    forall key, iv, aad, sealed, text :: c.open(key, iv, aad, sealed) == Some(text) ==> sealed == c.seal(key, iv, aad, text)
  }

  lemma Whole(ticket: seq<byte>)
    requires |ticket| >= 18
    ensures ticket == ticket[..18] + ticket[18..] && ticket[..18] == ticket[..4] + ticket[4..16] + ticket[16..18]
  {
  }

  /** So whatever loads is, byte for byte, the ticket of that session under one of the
      two keys. */
  lemma OnlyTicketsLoad(c: Crypto, d: Codec, k: Keys, ticket: seq<byte>, nowMs: int)
    requires Authentic(c) && |k.slots| == 2 && |ticket| >= MIN_LEN
    ensures var r := Parse(c, d, k, ticket, nowMs);
            r.Loaded? ==> exists i, text :: 0 <= i < 2 && |text| < 65536 && ticket == Ticket(c, k.slots[i], ticket[4..16], text) && d.load(text) == Some(r.session)
  {
    var r := Parse(c, d, k, ticket, nowMs);
    if r.Loaded? {
      ParseExactly(c, d, k, ticket, nowMs);
      var i, text :| Carries(c, d, k, ticket, i, text, r.session);
      var header := Header(k.slots[i], ticket[4..16], |text|);
      assert [High(|text|), Low(|text|)] == ticket[16..18];
      Whole(ticket);
      assert ticket == Ticket(c, k.slots[i], ticket[4..16], text);
    }
  }

  lemma TicketParts(c: Crypto, key: Key, iv: seq<byte>, state: seq<byte>)
    requires Ideal(c) && |key.name| == NAME_BYTES && |iv| == IV_BYTES && |state| < 65536
    ensures var t := Ticket(c, key, iv, state); var header := Header(key, iv, |state|);
            && |t| == MIN_LEN + |state| && Uint16(t[16], t[17]) == |state|
            && t[..4] == key.name && t[4..16] == iv && t[..18] == header
            && t[18..] == c.seal(key.secret, iv, header, state)
  {
    var header := Header(key, iv, |state|);
    assert |header| == AAD_BYTES;
    var t := Ticket(c, key, iv, state);
    assert t[..18] == header && header[..4] == key.name && header[4..16] == iv;
    assert t[16] == High(|state|) && t[17] == Low(|state|);
  }

  /** What parse makes of a ticket whose key it still finds: the session that was
      written, if the ticket is neither older than the lifetime nor from the future. */
  lemma ParseInvertsWrite(c: Crypto, d: Codec, k: Keys, key: Key, iv: seq<byte>, session: Session, nowMs: int)
    requires Ideal(c) && Faithful(d) && |k.slots| == 2 && Select(k, key.name) == Some(key)
    requires |key.name| == NAME_BYTES && |iv| == IV_BYTES && |d.save(session)| < 65536
    ensures var t := Ticket(c, key, iv, d.save(session));
            && |t| >= MIN_LEN
            && Parse(c, d, k, t, nowMs) ==
               if 0 <= nowMs - session.created <= key.lifetime * 1000 then Loaded(session) else Expired
  {
    TicketParts(c, key, iv, d.save(session));
  }

  /** Availability and layout together: for as long as its lifetime, a ticket
      written under any reachable keys loads the session it was written for. */
  lemma WrittenTicketsLoad(c: Crypto, d: Codec, k: Keys, now: int, earlier: seq<Env>, write: Env, iv: seq<byte>, session: Session,
                           later: seq<Env>, nowMs: int)
    requires Ideal(c) && Faithful(d) && |iv| == IV_BYTES && |d.save(session)| < 65536
    requires Writes(k, now, earlier, write)
    requires var v := Update(Run(k, earlier), write).0;
             Orderly(later, write.stamp, v.slots[v.active].name) && Before(later, write.check + k.lifetime)
    requires 0 <= nowMs - session.created <= k.lifetime * 1000
    ensures var v := Update(Run(k, earlier), write).0; var t := Ticket(c, v.slots[v.active], iv, d.save(session));
            |t| >= MIN_LEN && Parse(c, d, Run(v, later), t, nowMs) == Loaded(session)
  {
    TicketsStayReadable(k, now, earlier, write, later);
    var v := Update(Run(k, earlier), write).0;
    ParseInvertsWrite(c, d, Run(v, later), v.slots[v.active], iv, session, nowMs);
  }

  // -------------------------------------------------------------------------
  // The context in memory

  datatype Written = Wrote(tlen: nat, lifetime: nat) | TooSmall | NoKey | NoRandom | Internal

  // What a write comes to: `room` bytes of buffer, the outcome of the key update and
  // of the random generator, `size` bytes of state and `sealed` bytes of ciphertext.
  function Verdict(room: nat, updated: bool, random: bool, size: nat, sealed: nat, lifetime: nat): Written {
    if room < MIN_LEN then TooSmall
    else if !updated then NoKey
    else if !random then NoRandom
    else if room < AAD_BYTES + size then TooSmall
    else if size > 65535 then Wrote(0, lifetime)
    else if room < MIN_LEN + size then TooSmall
    else if sealed != size + TAG_BYTES then Internal
    else Wrote(MIN_LEN + size, lifetime)
  }

  // Session state, its length field and its tag fit a ticket in this room.
  predicate Fits(room: nat, size: nat) {
    size <= 65535 && MIN_LEN + size <= room
  }

  /** Exactly when a write succeeds, and when its success is an empty ticket: that
      happens for every state of more than 65535 bytes that the buffer can hold in the
      clear, and for no other. */
  lemma VerdictExactly(room: nat, updated: bool, random: bool, size: nat, sealed: nat, lifetime: nat)
    ensures var r := Verdict(room, updated, random, size, sealed, lifetime);
            && (r.Wrote? && r.tlen == 0 <==> MIN_LEN <= room && updated && random && size > 65535 && AAD_BYTES + size <= room)
            && (r.Wrote? && r.tlen > 0 <==> updated && random && Fits(room, size) && sealed == size + TAG_BYTES)
            && (r.Wrote? && r.tlen > 0 ==> r == Wrote(MIN_LEN + size, lifetime))
            && (r.NoKey? <==> MIN_LEN <= room && !updated)
            && (r.NoRandom? <==> MIN_LEN <= room && updated && !random)
            && (r.TooSmall? <==> room < MIN_LEN || (updated && random && room < (if size > 65535 then AAD_BYTES else MIN_LEN) + size))
            && (r.Internal? <==> updated && random && Fits(room, size) && sealed != size + TAG_BYTES)
  {
  }

  /** A state one byte too long in a buffer with room for it: success is reported and
      the ticket is empty. */
  lemma OversizedStateIsLost(c: Crypto, key: Key, iv: seq<byte>) returns (state: seq<byte>)
    ensures |state| == 65536
    ensures Verdict(70000, true, true, |state|, SealedLen(c, key, iv, state), 7200) == Wrote(0, 7200)
  {
    state := seq(65536, _ => 0);
  }

  // The length of the ciphertext, for a state that has a length field.
  function SealedLen(c: Crypto, key: Key, iv: seq<byte>, state: seq<byte>): nat {
    if |state| <= 65535 then |c.seal(key.secret, iv, Header(key, iv, |state|), state)| else 0
  }

  // Copies bytes into a buffer.
  method Put(buf: array<byte>, at: nat, bytes: seq<byte>)
    requires at + |bytes| <= buf.Length
    modifies buf
    ensures buf[..at] == old(buf[..at]) && buf[at..at + |bytes|] == bytes && buf[at + |bytes|..] == old(buf[at + |bytes|..])
  {
    var i := 0;
    while i < |bytes|
      invariant 0 <= i <= |bytes|
      invariant forall j | 0 <= j < buf.Length :: buf[j] == if at <= j < at + i then bytes[j - at] else old(buf[j])
    {
      buf[at + i] := bytes[i];
      i := i + 1;
    }
  }

  lemma Pieces(s: seq<byte>, name: seq<byte>, iv: seq<byte>, tail: seq<byte>)
    requires |s| >= 18 && s[..4] == name && s[4..16] == iv && s[16..18] == tail
    ensures s[..18] == name + iv + tail
  {
    assert s[..18] == s[..4] + s[4..16] + s[16..18];
  }

  lemma SubRange(s: seq<byte>, t: seq<byte>, a: nat, b: nat, n: nat)
    requires a <= b <= n <= |s| && n <= |t| && s[..n] == t[..n]
    ensures s[a..b] == t[a..b] && s[..a] == t[..a]
  {
    assert s[..n][a..b] == s[a..b] && t[..n][a..b] == t[a..b];
    assert s[..n][..a] == s[..a] && t[..n][..a] == t[..a];
  }

  // The rest of a ticket behind its key name and initialization vector: the state
  // is written first, then its length, and it is sealed in place.
  method FillIn(c: Crypto, key: Key, iv: seq<byte>, state: seq<byte>, buf: array<byte>) returns (r: Written)
    requires |key.name| == NAME_BYTES && |iv| == IV_BYTES && buf.Length >= MIN_LEN && buf[..4] == key.name && buf[4..16] == iv
    modifies buf
    ensures r == Verdict(buf.Length, true, true, |state|, SealedLen(c, key, iv, state), key.lifetime)
    ensures r.Internal? ==> !Ideal(c)
    ensures r.Wrote? && r.tlen > 0 ==> |state| <= 65535 && r.tlen <= buf.Length && buf[..r.tlen] == Ticket(c, key, iv, state)
  {
    if |state| > buf.Length - 18 {
      return TooSmall;
    }
    ghost var b0 := buf[..];
    Put(buf, 18, state);
    if |state| > 65535 {
      return Wrote(0, key.lifetime);
    }
    ghost var b1 := buf[..];
    Put(buf, 16, [High(|state|), Low(|state|)]);
    SubRange(b1, b0, 4, 16, 18);
    SubRange(buf[..], b1, 4, 16, 16);
    Pieces(buf[..], key.name, iv, [High(|state|), Low(|state|)]);
    var header := buf[..18];
    assert header == Header(key, iv, |state|);
    var sealed := c.seal(key.secret, iv, header, state);
    if |state| + TAG_BYTES > buf.Length - 18 {
      return TooSmall;
    }
    if |sealed| != |state| + TAG_BYTES {
      return Internal;
    }
    Put(buf, 18, sealed);
    r := Wrote(MIN_LEN + |sealed| - TAG_BYTES, key.lifetime);
    assert buf[..r.tlen] == buf[..18] + buf[18..18 + |sealed|];
  }

  class Context {
    const keys: array<Key>
    var active: nat
    var ticketLifetime: nat

    ghost predicate Valid()
      reads this, keys
    {
      keys.Length == 2 && active < 2 && forall i | 0 <= i < 2 :: |keys[i].name| == NAME_BYTES
    }

    ghost function State(): Keys
      reads this, keys
    {
      Keys(keys[..], active, ticketLifetime)
    }

    constructor()
      ensures Valid() && active == 0 && ticketLifetime == 0 && fresh(keys)
    {
      keys := new Key[2](_ => Key([0, 0, 0, 0], 0, 0, 0));
      active, ticketLifetime := 0, 0;
    }

    method GenerateKey(index: nat, e: Env) returns (ok: bool)
      requires Valid() && index < 2 && |e.name| == NAME_BYTES
      modifies keys
      ensures Valid() && (State(), ok) == GenKey(old(State()), index, e)
    {
      keys[index] := keys[index].(generation := e.stamp, lifetime := ticketLifetime);
      if e.fault == NameFails {
        assert keys[..] == GenKey(old(State()), index, e).0.slots;
        return false;
      }
      keys[index] := keys[index].(name := e.name);
      if e.fault == RandomFails || e.fault == ImportFails {
        assert keys[..] == GenKey(old(State()), index, e).0.slots;
        return false;
      }
      keys[index] := keys[index].(secret := e.secret);
      assert keys[..] == GenKey(old(State()), index, e).0.slots;
      ok := true;
    }

    method SetUp(lifetime: nat, e: Env, f: Env) returns (ok: bool)
      requires Valid() && |e.name| == |f.name| == NAME_BYTES
      modifies this, keys
      ensures Valid() && (State(), ok) == Setup(old(State()), lifetime, e, f)
    {
      ticketLifetime := lifetime;
      ok := GenerateKey(0, e);
      if ok {
        ok := GenerateKey(1, f);
      }
    }

    method UpdateKeys(e: Env) returns (ok: bool)
      requires Valid() && |e.name| == NAME_BYTES
      modifies this, keys
      ensures Valid() && (State(), ok) == Update(old(State()), e)
    {
      var key := keys[active];
      if key.lifetime == 0 {
        return true;
      }
      if e.check >= key.generation && e.check - key.generation < key.lifetime {
        return true;
      }
      active := 1 - active;
      if e.fault == DestroyFails {
        return false;
      }
      ok := GenerateKey(active, e);
    }

    method SelectKey(name: seq<byte>) returns (r: Option<Key>)
      requires Valid()
      ensures r == Select(State(), name)
    {
      var i := 0;
      while i < 2
        invariant 0 <= i <= 2
        invariant forall j | 0 <= j < i :: keys[j].name != name
      {
        if keys[i].name == name {
          return Some(keys[i]);
        }
        i := i + 1;
      }
      r := None;
    }

    /** mbedtls_ssl_ticket_write.  A state of more than 65535 bytes is reported as
        success with an empty ticket. */
    method Write(c: Crypto, d: Codec, session: Session, buf: array<byte>, e: Env, iv: Option<seq<byte>>) returns (r: Written)
      requires Valid() && |e.name| == NAME_BYTES && buf != keys as object && (iv.Some? ==> |iv.value| == IV_BYTES)
      modifies this, keys, buf
      ensures Valid()
      ensures State() == if buf.Length < MIN_LEN then old(State()) else Update(old(State()), e).0
      ensures r == Verdict(buf.Length, Update(old(State()), e).1, iv.Some?, |d.save(session)|,
                           if iv.Some? then SealedLen(c, State().slots[active], iv.value, d.save(session)) else 0,
                           State().slots[active].lifetime)
      ensures r.Wrote? && r.tlen > 0 ==>
                && iv.Some? && |d.save(session)| <= 65535 && r.tlen <= buf.Length
                && buf[..r.tlen] == Ticket(c, State().slots[active], iv.value, d.save(session))
      ensures Ideal(c) ==> (r == Wrote(MIN_LEN + |d.save(session)|, State().slots[active].lifetime)
                            <==> Update(old(State()), e).1 && iv.Some? && Fits(buf.Length, |d.save(session)|))
      ensures r.Wrote? && r.tlen == 0 <==>
                MIN_LEN <= buf.Length && Update(old(State()), e).1 && iv.Some? && |d.save(session)| > 65535
                && AAD_BYTES + |d.save(session)| <= buf.Length
      ensures r.NoKey? <==> MIN_LEN <= buf.Length && !Update(old(State()), e).1
      ensures r.NoRandom? <==> MIN_LEN <= buf.Length && Update(old(State()), e).1 && iv.None?
      ensures r.TooSmall? <==> buf.Length < MIN_LEN
                               || (Update(old(State()), e).1 && iv.Some?
                                   && buf.Length < (if |d.save(session)| > 65535 then AAD_BYTES else MIN_LEN) + |d.save(session)|)
      ensures r.Internal? ==> !Ideal(c)
    {
      if buf.Length < MIN_LEN {
        return TooSmall;
      }
      var ok := UpdateKeys(e);
      if !ok {
        return NoKey;
      }
      var key := keys[active];
      Put(buf, 0, key.name);
      if iv.None? {
        return NoRandom;
      }
      Put(buf, 4, iv.value);
      assert buf[..4] == key.name by { assert buf[..4] == buf[0..4]; }
      r := FillIn(c, key, iv.value, d.save(session), buf);
    }

    method ParseTicket(c: Crypto, d: Codec, ticket: seq<byte>, e: Env, nowMs: int) returns (r: Parsed)
      requires Valid() && |e.name| == NAME_BYTES
      modifies this, keys
      ensures Valid()
      ensures |ticket| < MIN_LEN ==> r == BadInput && State() == old(State())
      ensures |ticket| >= MIN_LEN ==> State() == Update(old(State()), e).0
      ensures |ticket| >= MIN_LEN ==> r == if Update(old(State()), e).1 then Parse(c, d, State(), ticket, nowMs) else KeyError
    {
      if |ticket| < MIN_LEN {
        return BadInput;
      }
      var ok := UpdateKeys(e);
      if !ok {
        return KeyError;
      }
      var n := Uint16(ticket[16], ticket[17]);
      if |ticket| != MIN_LEN + n {
        return BadInput;
      }
      var key := SelectKey(ticket[..4]);
      if key.None? {
        return Expired;
      }
      var clear := c.open(key.value.secret, ticket[4..16], ticket[..18], ticket[18..]);
      if clear.None? {
        return NotAuthentic;
      }
      if |clear.value| != n {
        return WrongLength;
      }
      var session := d.load(clear.value);
      if session.None? {
        return NotLoadable;
      }
      var age := nowMs - session.value.created;
      if age < 0 || age > key.value.lifetime * 1000 {
        return Expired;
      }
      r := Loaded(session.value);
    }
  }
}
