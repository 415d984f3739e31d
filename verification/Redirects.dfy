/** Short links and the cache in front of them: backend/src/services/url.service.js,
    backend/src/services/cache.service.js and backend/src/repositories/url.repository.js.
    The store answers, and each operation is one step. Plan gating and password hashing happen
    outside: their results are arguments. */
module Redirects {
  import opened BillingTypes

  type Code = string

  datatype Row = Row(id: nat, longUrl: string, passwordHash: Option<nat>, active: bool, expires: Option<Time>, owner: Option<UserId>,
                     customAlias: bool, domain: Option<nat>)

  /** What is stored under `short:<code>`. Older entries are a bare target. */
  datatype Entry = Bare(longUrl: string) | Copy(id: nat, longUrl: string, passwordHash: Option<nat>, active: bool, expires: Option<Time>)
  datatype Cell = Cell(entry: Entry, until: Time)

  type Table = map<Code, Row>
  type Cache = map<Code, Cell>
  datatype Store = Store(table: Table, cache: Cache)

  datatype Answer = Target(id: nat, longUrl: string, passwordHash: Option<nat>) | Status(code: nat)

  predicate Over(expires: Option<Time>, now: Time) {
    expires.Some? && expires.value <= now
  }

  // url.service.js, lines 64-97

  /** What a visit answers without a cache. */
  function Plain(table: Table, code: Code, now: Time): Answer {
    if code !in table then Status(404)
    else if !table[code].active || Over(table[code].expires, now) then Status(410)
    else Target(table[code].id, table[code].longUrl, table[code].passwordHash)
  }

  function CopyOf(row: Row): Entry {
    Copy(row.id, row.longUrl, row.passwordHash, row.active, row.expires)
  }

  function Lookup(cache: Cache, code: Code, now: Time): Option<Entry> {
    if code in cache && now < cache[code].until then Some(cache[code].entry) else None
  }

  /** The answer of a visit, from the cache if it has a usable entry. */
  function Visited(store: Store, code: Code, now: Time): Answer {
    var cached := Lookup(store.cache, code, now);
    if cached.Some? && cached.value.Copy? && cached.value.longUrl != "" then
      if !cached.value.active || Over(cached.value.expires, now) then Status(410)
      else Target(cached.value.id, cached.value.longUrl, cached.value.passwordHash)
    else Plain(store.table, code, now)
  }

  function Visit(store: Store, code: Code, now: Time, ttl: Time): Store {
    var cached := Lookup(store.cache, code, now);
    if (cached.Some? && cached.value.Copy? && cached.value.longUrl != "") || Plain(store.table, code, now).Status? then store
    else store.(cache := store.cache[code := Cell(CopyOf(store.table[code]), now + ttl)])
  }

  function Dropped(cache: Cache, code: Code): Cache {
    map k | k in cache && k != code :: cache[k]
  }

  // Changes to the table

  datatype Caller = Caller(id: Option<UserId>, admin: bool)

  predicate Mine(row: Row, caller: Caller) {
    caller.admin || (caller.id.Some? && row.owner == caller.id)
  }

  /** `None` for a field that is not in the request; the alias is trimmed. */
  datatype Changes = Changes(longUrl: Option<string>, alias: Option<Code>, expires: Option<Option<Time>>, passwordHash: Option<Option<nat>>,
                             domain: Option<Option<nat>>)

  type ErrorStatus = n: nat | 400 <= n witness 400

  /** What the plan says: a refusal, or the expiry it allows. */
  datatype Gate = Allowed(expires: Option<Time>) | Forbidden(status: ErrorStatus)

  function Merged(row: Row, changes: Changes, caller: Caller, gate: Gate): Row {
    Row(row.id,
        if changes.longUrl.Some? then changes.longUrl.value else row.longUrl,
        if changes.passwordHash.Some? then changes.passwordHash.value else row.passwordHash,
        row.active,
        if changes.expires.None? then row.expires
        else if caller.id.Some? && gate.Allowed? then gate.expires else changes.expires.value,
        row.owner,
        changes.alias.Some? || row.customAlias,
        if changes.domain.Some? then changes.domain.value else row.domain)
  }

  function NewCode(code: Code, changes: Changes): Code {
    if changes.alias.Some? then changes.alias.value else code
  }

  /** Lines 124-227: the status of an update, 200 when it is carried out. */
  function UpdateStatus(table: Table, code: Code, changes: Changes, caller: Caller, gate: Gate): nat {
    if changes == Changes(None, None, None, None, None) then 400
    else if code !in table || !Mine(table[code], caller) then 404
    else if !table[code].active then 410
    else if changes.alias == Some("") then 400
    else if NewCode(code, changes) != code && NewCode(code, changes) in table then 409
    else if caller.id.Some? && gate.Forbidden? then gate.status
    else 200
  }

  function Renamed(table: Table, code: Code, newCode: Code, row: Row): Table {
    (map k | k in table && k != code :: table[k])[newCode := row]
  }

  function Updated(store: Store, code: Code, changes: Changes, caller: Caller, gate: Gate): Store {
    if UpdateStatus(store.table, code, changes, caller, gate) != 200 || code !in store.table then store
    else Store(Renamed(store.table, code, NewCode(code, changes), Merged(store.table[code], changes, caller, gate)),
               Dropped(store.cache, code))
  }

  function Deactivated(store: Store, code: Code, caller: Caller): Store {
    if code in store.table && store.table[code].active && Mine(store.table[code], caller)
    then Store(store.table[code := store.table[code].(active := false)], Dropped(store.cache, code))
    else store
  }

  function Inserted(store: Store, code: Code, row: Row): Store {
    if code in store.table then store else store.(table := store.table[code := row.(active := true)])
  }

  /** backend/src/services/url.service.js as a program over the two stores. */
  class RedirectService {
    var table: Table
    var cache: Cache

    ghost function Both(): Store
      reads this
    {
      Store(table, cache)
    }

    constructor ()
      ensures Both() == Store(map[], map[])
    {
      table, cache := map[], map[];
    }

    method GetCachedUrl(code: Code, now: Time) returns (cached: Option<Entry>)
      ensures cached == Lookup(cache, code, now)
    {
      if code in cache && now < cache[code].until {
        return Some(cache[code].entry);
      }
      return None;
    }

    method GetOriginalUrl(code: Code, now: Time, ttl: Time) returns (answer: Answer)
      modifies this`cache
      ensures answer == Visited(old(Both()), code, now) && Both() == Visit(old(Both()), code, now, ttl)
    {
      var cached := GetCachedUrl(code, now);
      if cached.Some? && cached.value.Copy? && cached.value.longUrl != "" {
        if !cached.value.active || Over(cached.value.expires, now) {
          return Status(410);
        }
        return Target(cached.value.id, cached.value.longUrl, cached.value.passwordHash);
      }
      if code !in table {
        return Status(404);
      }
      var url := table[code];
      if !url.active {
        return Status(410);
      }
      if url.expires.Some? && url.expires.value <= now {
        return Status(410);
      }
      cache := cache[code := Cell(Copy(url.id, url.longUrl, url.passwordHash, url.active, url.expires), now + ttl)];
      return Target(url.id, url.longUrl, url.passwordHash);
    }

    method InvalidateCache(code: Code)
      modifies this`cache
      ensures cache == Dropped(old(cache), code)
    {
      cache := map k | k in cache && k != code :: cache[k];
    }

    /** A repository insert: the unique index on the short code arbitrates. */
    method CreateUrl(code: Code, row: Row) returns (inserted: bool)
      modifies this`table
      ensures inserted == (code !in old(table)) && Both() == Inserted(old(Both()), code, row)
    {
      if code in table {
        return false;
      }
      table := table[code := row.(active := true)];
      return true;
    }

    /** Line 60 with backend/src/utils/generateShortCode.js, lines 17-25: the first of the
        generated codes that is free, within as many attempts as there are codes. */
    method InsertWithUniqueCode(generated: seq<Code>, row: Row) returns (code: Option<Code>)
      modifies this`table
      ensures code.None? <==> forall c :: c in generated ==> c in old(table)
      ensures code.None? ==> Both() == old(Both())
      ensures code.Some? ==>
        && Both() == Inserted(old(Both()), code.value, row) && code.value !in old(table)
        && exists n :: 0 <= n < |generated| && generated[n] == code.value && forall i :: 0 <= i < n ==> generated[i] in old(table)
    {
      for attempt := 0 to |generated|
        invariant Both() == old(Both()) && forall i :: 0 <= i < attempt ==> generated[i] in table
      {
        var inserted := CreateUrl(generated[attempt], row);
        if inserted {
          return Some(generated[attempt]);
        }
      }
      return None;
    }

    /** Lines 125-204: the first check that fails. */
    method CheckUpdate(code: Code, changes: Changes, caller: Caller, gate: Gate) returns (status: nat)
      ensures status == UpdateStatus(table, code, changes, caller, gate)
    {
      if changes.longUrl.None? && changes.alias.None? && changes.expires.None? && changes.passwordHash.None? && changes.domain.None? {
        return 400;
      }
      if code !in table || !Mine(table[code], caller) {
        return 404;
      }
      if !table[code].active {
        return 410;
      }
      if changes.alias.Some? {
        if changes.alias.value == "" {
          return 400;
        }
        if changes.alias.value != code && changes.alias.value in table {
          return 409;
        }
      }
      if caller.id.Some? && gate.Forbidden? {
        return gate.status;
      }
      return 200;
    }

    /** Lines 147-204: the columns of the updated row. */
    method NextRow(url: Row, changes: Changes, caller: Caller, gate: Gate) returns (row: Row)
      ensures row == Merged(url, changes, caller, gate)
    {
      var nextLongUrl, nextExpires, nextPasswordHash := url.longUrl, url.expires, url.passwordHash;
      var nextCustomAlias, nextCustomDomain := url.customAlias, url.domain;
      if changes.longUrl.Some? {
        nextLongUrl := changes.longUrl.value;
      }
      if changes.alias.Some? {
        nextCustomAlias := true;
      }
      if changes.expires.Some? {
        nextExpires := changes.expires.value;
      }
      if changes.passwordHash.Some? {
        nextPasswordHash := changes.passwordHash.value;
      }
      if changes.domain.Some? {
        nextCustomDomain := changes.domain.value;
      }
      if caller.id.Some? && gate.Allowed? && changes.expires.Some? {
        nextExpires := gate.expires;
      }
      row := Row(url.id, nextLongUrl, nextPasswordHash, url.active, nextExpires, url.owner, nextCustomAlias, nextCustomDomain);
    }

    method UpdateShortUrl(code: Code, changes: Changes, caller: Caller, gate: Gate) returns (status: nat)
      modifies this
      ensures status == UpdateStatus(old(table), code, changes, caller, gate)
      ensures Both() == Updated(old(Both()), code, changes, caller, gate)
    {
      hide Merged;
      status := CheckUpdate(code, changes, caller, gate);
      if status != 200 {
        return;
      }
      var row := NextRow(table[code], changes, caller, gate);
      var nextShortCode := if changes.alias.Some? then changes.alias.value else code;
      table := (map k | k in table && k != code :: table[k])[nextShortCode := row];
      InvalidateCache(code);
    }

    method DeactivateShortUrl(code: Code, caller: Caller) returns (done: bool)
      modifies this
      ensures done == (code in old(table) && old(table)[code].active && Mine(old(table)[code], caller))
      ensures Both() == Deactivated(old(Both()), code, caller)
    {
      if code !in table || !table[code].active || !Mine(table[code], caller) {
        return false;
      }
      table := table[code := table[code].(active := false)];
      InvalidateCache(code);
      return true;
    }
  }

  // The cache and the table

  /** Every full entry is a copy of an active row, fresh or not. */
  ghost predicate Agree(store: Store) {
    forall k :: k in store.cache && store.cache[k].entry.Copy? ==>
      k in store.table && store.table[k].active && store.cache[k].entry == CopyOf(store.table[k])
  }

  lemma AgreedAnswer(store: Store, code: Code, now: Time)
    requires Agree(store)
    ensures Visited(store, code, now) == Plain(store.table, code, now)
  {
  }

  /** A rename drops the entry of the old code, and the new code, being free, had none. */
  lemma UpdateAgrees(store: Store, code: Code, changes: Changes, caller: Caller, gate: Gate)
    requires Agree(store)
    ensures Agree(Updated(store, code, changes, caller, gate))
  {
  }

  lemma DeactivateAgrees(store: Store, code: Code, caller: Caller)
    requires Agree(store)
    ensures Agree(Deactivated(store, code, caller))
  {
  }

  datatype Op =
    | Wait(elapsed: nat)
    | Create(code: Code, row: Row)
    | Update(code: Code, changes: Changes, caller: Caller, gate: Gate)
    | Deactivate(code: Code, caller: Caller)
    | Follow(code: Code)
    | Forget(code: Code) // the entry ran out or was evicted

  function Do(store: Store, op: Op, now: Time, ttl: Time): Store {
    match op
    case Wait(_) => store
    case Create(code, row) => Inserted(store, code, row)
    case Update(code, changes, caller, gate) => Updated(store, code, changes, caller, gate)
    case Deactivate(code, caller) => Deactivated(store, code, caller)
    case Follow(code) => Visit(store, code, now, ttl)
    case Forget(code) => store.(cache := Dropped(store.cache, code))
  }

  /** What the visits of a history answer, with the cache. */
  function Answers(store: Store, ops: seq<Op>, now: Time, ttl: Time): seq<Answer>
    decreases |ops|
  {
    if ops == [] then []
    else (if ops[0].Follow? then [Visited(store, ops[0].code, now)] else [])
         + Answers(Do(store, ops[0], now, ttl), ops[1..], if ops[0].Wait? then now + ops[0].elapsed else now, ttl)
  }

  /** The same history on the table alone. */
  function PlainAnswers(table: Table, ops: seq<Op>, now: Time): seq<Answer>
    decreases |ops|
  {
    if ops == [] then []
    else (if ops[0].Follow? then [Plain(table, ops[0].code, now)] else [])
         + PlainAnswers(Do(Store(table, map[]), ops[0], now, 0).table, ops[1..], if ops[0].Wait? then now + ops[0].elapsed else now)
  }

  /** The table never depends on the cache. */
  lemma SameTable(store: Store, op: Op, now: Time, ttl: Time)
    ensures Do(store, op, now, ttl).table == Do(Store(store.table, map[]), op, now, 0).table
  {
  }

  lemma DoAgrees(store: Store, op: Op, now: Time, ttl: Time)
    requires Agree(store)
    ensures Agree(Do(store, op, now, ttl))
  {
    match op
    case Update(code, changes, caller, gate) => UpdateAgrees(store, code, changes, caller, gate);
    case Deactivate(code, caller) => DeactivateAgrees(store, code, caller);
    case _ =>
  }

  /** For every history, the cache changes no answer. */
  lemma {:induction false} CacheIsInvisible(store: Store, ops: seq<Op>, now: Time, ttl: Time)
    requires Agree(store)
    ensures Answers(store, ops, now, ttl) == PlainAnswers(store.table, ops, now)
    decreases |ops|
  {
    hide Agree, Do, Visited, Plain;
    if ops != [] {
      var next := if ops[0].Wait? then now + ops[0].elapsed else now;
      DoAgrees(store, ops[0], now, ttl);
      SameTable(store, ops[0], now, ttl);
      CacheIsInvisible(Do(store, ops[0], now, ttl), ops[1..], next, ttl);
      if ops[0].Follow? {
        AgreedAnswer(store, ops[0].code, now);
      }
    }
  }

  // What a visit answers, said by the history of its code

  /** Lines 125-204: an update is carried out when it changes something of the caller's own active link,
      its new code is not empty and is free, and the plan allows it. */
  predicate Accepted(table: Table, code: Code, changes: Changes, caller: Caller, gate: Gate) {
    && (changes.longUrl.Some? || changes.alias.Some? || changes.expires.Some? || changes.passwordHash.Some? || changes.domain.Some?)
    && code in table && table[code].active && (caller.admin || (caller.id.Some? && table[code].owner == caller.id))
    && (changes.alias.Some? ==> changes.alias.value != "" && (changes.alias.value == code || changes.alias.value !in table))
    && (caller.id.Some? ==> gate.Allowed?)
  }

  /** A field that is in the request is written, except that a signed-in caller's expiry is what the plan
      allows; every other column stays. A link with a requested code counts as custom. */
  predicate IsWritten(old_: Row, changes: Changes, caller: Caller, gate: Gate, row: Row) {
    && row.id == old_.id && row.owner == old_.owner && row.active == old_.active
    && (match changes.longUrl case Some(url) => row.longUrl == url case None => row.longUrl == old_.longUrl)
    && (match changes.passwordHash case Some(hash) => row.passwordHash == hash case None => row.passwordHash == old_.passwordHash)
    && (match changes.domain case Some(domain) => row.domain == domain case None => row.domain == old_.domain)
    && (match changes.expires
        case Some(at) => if caller.id.Some? then gate.Allowed? && row.expires == gate.expires else row.expires == at
        case None => row.expires == old_.expires)
    && (row.customAlias <==> changes.alias.Some? || old_.customAlias)
  }

  /** The operation puts `row` under the code: a new link with a free code, or an update that keeps the
      code or takes it. */
  ghost predicate Gives(table: Table, op: Op, code: Code, row: Row) {
    match op
    case Create(c, new_) => c == code && code !in table && row == new_.(active := true)
    case Update(c, changes, caller, gate) =>
      && Accepted(table, c, changes, caller, gate) && IsWritten(table[c], changes, caller, gate, row)
      && (match changes.alias case Some(alias) => alias == code case None => c == code)
    case _ => false
  }

  /** The operation takes the code away from its link. */
  predicate RenamesAway(table: Table, op: Op, code: Code) {
    op.Update? && op.code == code && Accepted(table, code, op.changes, op.caller, op.gate)
    && op.changes.alias.Some? && op.changes.alias.value != code
  }

  predicate Kills(table: Table, op: Op, code: Code) {
    op.Deactivate? && op.code == code && code in table && table[code].active
    && (op.caller.admin || (op.caller.id.Some? && table[code].owner == op.caller.id))
  }

  function TableAfter(ops: seq<Op>): Table {
    if ops == [] then map[]
    else Do(Store(TableAfter(ops[..|ops| - 1]), map[]), ops[|ops| - 1], 0, 0).table
  }

  lemma UpdateWrites(table: Table, c: Code, changes: Changes, caller: Caller, gate: Gate)
    ensures var r := Updated(Store(table, map[]), c, changes, caller, gate).table;
            if !Accepted(table, c, changes, caller, gate) then r == table
            else
              var code := match changes.alias case Some(alias) => alias case None => c;
              && code in r && IsWritten(table[c], changes, caller, gate, r[code])
              && (c != code ==> c !in r)
              && forall k :: k != c && k != code ==> (k in r <==> k in table) && (k in table ==> r[k] == table[k])
  {
  }

  lemma WrittenIsUnique(old_: Row, changes: Changes, caller: Caller, gate: Gate, a: Row, b: Row)
    requires IsWritten(old_, changes, caller, gate, a) && IsWritten(old_, changes, caller, gate, b)
    ensures a == b
  {
  }

  /** What one operation does to the row of a code. */
  lemma OpWrites(table: Table, op: Op, code: Code)
    ensures var r := Do(Store(table, map[]), op, 0, 0).table;
            && (forall row :: Gives(table, op, code, row) <==> (exists x :: Gives(table, op, code, x)) && code in r && r[code] == row)
            && (RenamesAway(table, op, code) ==> code !in r)
            && (Kills(table, op, code) ==> code in r && r[code] == table[code].(active := false))
            && (!(exists x :: Gives(table, op, code, x)) && !RenamesAway(table, op, code) && !Kills(table, op, code) ==>
                  (code in r <==> code in table) && (code in table ==> r[code] == table[code]))
  {
    hide IsWritten, Updated;
    if op.Update? {
      UpdateWrites(table, op.code, op.changes, op.caller, op.gate);
      var r := Updated(Store(table, map[]), op.code, op.changes, op.caller, op.gate).table;
      forall row | Gives(table, op, code, row)
        ensures code in r && r[code] == row
      {
        WrittenIsUnique(table[op.code], op.changes, op.caller, op.gate, row, r[code]);
      }
      if Accepted(table, op.code, op.changes, op.caller, op.gate) && code == (match op.changes.alias case Some(alias) => alias case None => op.code) {
        assert Gives(table, op, code, r[code]);
      }
    } else if op.Create? && op.code == code && code !in table {
      assert Gives(table, op, code, op.row.(active := true));
    }
  }

  /** `row` was written under the code last, and the link was neither renamed nor deactivated since. */
  ghost predicate Stands(ops: seq<Op>, code: Code, row: Row) {
    exists i :: 0 <= i < |ops| && GivenAt(ops, i, code, row) && forall j | i < j < |ops| :: LeftAt(ops, j, code)
  }

  ghost predicate GivenAt(ops: seq<Op>, i: int, code: Code, row: Row)
    requires 0 <= i < |ops|
  {
    Gives(TableAfter(ops[..i]), ops[i], code, row)
  }

  ghost predicate LeftAt(ops: seq<Op>, i: int, code: Code)
    requires 0 <= i < |ops|
  {
    var table := TableAfter(ops[..i]);
    !RenamesAway(table, ops[i], code) && !Kills(table, ops[i], code) && forall row :: !Gives(table, ops[i], code, row)
  }

  lemma PrefixOf(ops: seq<Op>, i: nat)
    requires i < |ops|
    ensures ops[..|ops| - 1][..i] == ops[..i]
  {
  }

  lemma StandsLonger(ops: seq<Op>, code: Code, row: Row)
    requires ops != []
    ensures Stands(ops, code, row) <==>
      GivenAt(ops, |ops| - 1, code, row) || (LeftAt(ops, |ops| - 1, code) && Stands(ops[..|ops| - 1], code, row))
  {
    hide Gives, RenamesAway, Kills, TableAfter;
    var init, n := ops[..|ops| - 1], |ops| - 1;
    forall i | 0 <= i < n
      ensures GivenAt(init, i, code, row) <==> GivenAt(ops, i, code, row)
      ensures LeftAt(init, i, code) <==> LeftAt(ops, i, code)
    {
      PrefixOf(ops, i);
    }
    if !GivenAt(ops, n, code, row) && LeftAt(ops, n, code) {
      if i :| 0 <= i < |init| && GivenAt(init, i, code, row) && forall j | i < j < |init| :: LeftAt(init, j, code) {
        assert GivenAt(ops, i, code, row) && forall j | i < j < |ops| :: LeftAt(ops, j, code);
      }
      if i :| 0 <= i < |ops| && GivenAt(ops, i, code, row) && forall j | i < j < |ops| :: LeftAt(ops, j, code) {
        assert GivenAt(init, i, code, row) && forall j | i < j < |init| :: LeftAt(init, j, code);
      }
    }
  }

  /** The active row of a code is the one that stands in its history. */
  lemma {:induction false} TableTells(ops: seq<Op>, code: Code, row: Row)
    requires row.active
    ensures code in TableAfter(ops) && TableAfter(ops)[code] == row <==> Stands(ops, code, row)
    decreases |ops|
  {
    hide Gives, RenamesAway, Kills, Do;
    if ops != [] {
      var init, table := ops[..|ops| - 1], TableAfter(ops[..|ops| - 1]);
      TableTells(init, code, row);
      StandsLonger(ops, code, row);
      OpWrites(table, ops[|ops| - 1], code);
    }
  }

  ghost predicate SomeGivenAt(ops: seq<Op>, i: int, code: Code)
    requires 0 <= i < |ops|
  {
    exists row :: GivenAt(ops, i, code, row)
  }

  ghost predicate RenamedAt(ops: seq<Op>, i: int, code: Code)
    requires 0 <= i < |ops|
  {
    RenamesAway(TableAfter(ops[..i]), ops[i], code)
  }

  /** No link has the code: whenever one was put under it, it was renamed away later. */
  ghost predicate Vacant(ops: seq<Op>, code: Code) {
    forall i | 0 <= i < |ops| && SomeGivenAt(ops, i, code) :: exists j :: i < j < |ops| && RenamedAt(ops, j, code)
  }

  lemma VacantLonger(ops: seq<Op>, code: Code)
    requires ops != []
    ensures Vacant(ops, code) <==> !SomeGivenAt(ops, |ops| - 1, code) && (RenamedAt(ops, |ops| - 1, code) || Vacant(ops[..|ops| - 1], code))
  {
    hide Gives, RenamesAway, TableAfter;
    var init, n := ops[..|ops| - 1], |ops| - 1;
    forall i | 0 <= i < n
      ensures SomeGivenAt(init, i, code) <==> SomeGivenAt(ops, i, code)
      ensures RenamedAt(init, i, code) <==> RenamedAt(ops, i, code)
    {
      PrefixOf(ops, i);
      assert forall row :: GivenAt(init, i, code, row) <==> GivenAt(ops, i, code, row);
    }
    if Vacant(init, code) && !SomeGivenAt(ops, n, code) {
      forall i | 0 <= i < |ops| && SomeGivenAt(ops, i, code)
        ensures exists j :: i < j < |ops| && RenamedAt(ops, j, code)
      {
        assert SomeGivenAt(init, i, code);
        var j :| i < j < |init| && RenamedAt(init, j, code);
        assert RenamedAt(ops, j, code);
      }
    }
    if Vacant(ops, code) && !RenamedAt(ops, n, code) {
      forall i | 0 <= i < |init| && SomeGivenAt(init, i, code)
        ensures exists j :: i < j < |init| && RenamedAt(init, j, code)
      {
        assert SomeGivenAt(ops, i, code);
        var j :| i < j < |ops| && RenamedAt(ops, j, code);
        assert RenamedAt(init, j, code);
      }
    }
  }

  lemma {:induction false} TableLacks(ops: seq<Op>, code: Code)
    ensures code !in TableAfter(ops) <==> Vacant(ops, code)
    decreases |ops|
  {
    hide Gives, RenamesAway, Kills, Do;
    if ops != [] {
      var init, table := ops[..|ops| - 1], TableAfter(ops[..|ops| - 1]);
      TableLacks(init, code);
      VacantLonger(ops, code);
      OpWrites(table, ops[|ops| - 1], code);
      RenamedWasThere(table, ops[|ops| - 1], code);
      var last := ops[|ops| - 1];
      assert SomeGivenAt(ops, |ops| - 1, code) <==> exists row :: Gives(table, last, code, row) by {
        forall row
          ensures GivenAt(ops, |ops| - 1, code, row) <==> Gives(table, last, code, row)
        {
        }
      }
    }
  }

  lemma RenamedWasThere(table: Table, op: Op, code: Code)
    ensures RenamesAway(table, op, code) ==> code in table && forall row :: !Gives(table, op, code, row)
    ensures Kills(table, op, code) ==> code in table
  {
  }

  function Clock(ops: seq<Op>, start: Time): Time {
    if ops == [] then start
    else Clock(ops[..|ops| - 1], start) + if ops[|ops| - 1].Wait? then ops[|ops| - 1].elapsed else 0
  }

  /** The answer to one more visit, after a history that began with nothing stored. */
  function LastAnswer(ops: seq<Op>, code: Code, start: Time, ttl: Time): Answer
    requires Answers(Store(map[], map[]), ops + [Follow(code)], start, ttl) != []
  {
    var answers := Answers(Store(map[], map[]), ops + [Follow(code)], start, ttl);
    answers[|answers| - 1]
  }

  /** The last answer of a history on the table alone. */
  lemma {:induction false} LastPlain(table: Table, ops: seq<Op>, code: Code, now: Time)
    ensures var answers := PlainAnswers(table, ops + [Follow(code)], now);
            && answers != []
            && answers[|answers| - 1] == Plain(TableFrom(table, ops), code, ClockFrom(ops, now))
    decreases |ops|
  {
    hide Do, Plain;
    if ops == [] {
      assert ops + [Follow(code)] == [Follow(code)];
      assert PlainAnswers(Do(Store(table, map[]), Follow(code), now, 0).table, [], now) == [];
    } else {
      var next := if ops[0].Wait? then now + ops[0].elapsed else now;
      assert (ops + [Follow(code)])[1..] == ops[1..] + [Follow(code)];
      LastPlain(Do(Store(table, map[]), ops[0], now, 0).table, ops[1..], code, next);
      TableIgnoresTime(table, ops[0], now);
    }
  }

  function TableFrom(table: Table, ops: seq<Op>): Table
    decreases |ops|
  {
    if ops == [] then table else TableFrom(Do(Store(table, map[]), ops[0], 0, 0).table, ops[1..])
  }

  function ClockFrom(ops: seq<Op>, now: Time): Time
    decreases |ops|
  {
    if ops == [] then now else ClockFrom(ops[1..], if ops[0].Wait? then now + ops[0].elapsed else now)
  }

  lemma TableIgnoresTime(table: Table, op: Op, now: Time)
    ensures Do(Store(table, map[]), op, now, 0).table == Do(Store(table, map[]), op, 0, 0).table
  {
  }

  lemma {:induction false} TableFromEnd(table: Table, ops: seq<Op>)
    requires ops != []
    ensures TableFrom(table, ops) == Do(Store(TableFrom(table, ops[..|ops| - 1]), map[]), ops[|ops| - 1], 0, 0).table
    decreases |ops|
  {
    hide Do;
    if |ops| > 1 {
      assert ops[1..][..|ops| - 2] == ops[..|ops| - 1][1..];
      TableFromEnd(Do(Store(table, map[]), ops[0], 0, 0).table, ops[1..]);
    }
  }

  lemma {:induction false} SameTableAfter(ops: seq<Op>)
    ensures TableAfter(ops) == TableFrom(map[], ops)
  {
    hide Do;
    if ops != [] {
      SameTableAfter(ops[..|ops| - 1]);
      TableFromEnd(map[], ops);
    }
  }

  lemma {:induction false} ClockFromEnd(ops: seq<Op>, now: Time)
    requires ops != []
    ensures ClockFrom(ops, now) == ClockFrom(ops[..|ops| - 1], now) + if ops[|ops| - 1].Wait? then ops[|ops| - 1].elapsed else 0
    decreases |ops|
  {
    if |ops| > 1 {
      assert ops[1..][..|ops| - 2] == ops[..|ops| - 1][1..];
      ClockFromEnd(ops[1..], if ops[0].Wait? then now + ops[0].elapsed else now);
    }
  }

  lemma {:induction false} SameClock(ops: seq<Op>, start: Time)
    ensures Clock(ops, start) == ClockFrom(ops, start)
  {
    if ops != [] {
      SameClock(ops[..|ops| - 1], start);
      ClockFromEnd(ops, start);
    }
  }

  lemma LastIsPlain(ops: seq<Op>, code: Code, start: Time, ttl: Time)
    ensures Answers(Store(map[], map[]), ops + [Follow(code)], start, ttl) != []
    ensures LastAnswer(ops, code, start, ttl) == Plain(TableAfter(ops), code, Clock(ops, start))
  {
    hide Do, Plain, Answers, PlainAnswers;
    CacheIsInvisible(Store(map[], map[]), ops + [Follow(code)], start, ttl);
    LastPlain(map[], ops, code, start);
    SameTableAfter(ops);
    SameClock(ops, start);
  }

  /** After any history, with the cache: a visit answers a target exactly when a link was put under the
      code, has been neither renamed nor deactivated nor overwritten since, and has no expiry or one that
      is still to come; the target is what was written last. It answers 404 exactly when every link that
      was put under the code was renamed away, and 410 otherwise. */
  lemma VisitTells(ops: seq<Op>, code: Code, start: Time, ttl: Time)
    ensures Answers(Store(map[], map[]), ops + [Follow(code)], start, ttl) != []
    ensures var answer := LastAnswer(ops, code, start, ttl);
            && (forall row :: Stands(ops, code, row) && (row.expires.None? || Clock(ops, start) < row.expires.value) ==>
                  answer == Target(row.id, row.longUrl, row.passwordHash))
            && (answer.Target? ==> exists row :: Stands(ops, code, row) && (row.expires.None? || Clock(ops, start) < row.expires.value))
            && (answer == Status(404) <==> Vacant(ops, code))
            && (answer.Status? ==> answer.code == 404 || answer.code == 410)
  {
    hide Stands, Vacant, TableAfter, LastAnswer, Clock, Answers;
    LastIsPlain(ops, code, start, ttl);
    TableLacks(ops, code);
    var table := TableAfter(ops);
    forall row | Stands(ops, code, row)
      ensures code in table && table[code] == row && row.active
    {
      StandingIsActive(ops, code, row);
      TableTells(ops, code, row);
    }
    if code in table && table[code].active {
      TableTells(ops, code, table[code]);
    }
  }

  lemma StandingIsActive(ops: seq<Op>, code: Code, row: Row)
    requires Stands(ops, code, row)
    ensures row.active
  {
    hide TableAfter;
  }

  /** A visit that answers a target leaves its copy in the cache: until that runs out, or the link is
      changed, the table is not asked again. */
  lemma VisitIsRemembered(store: Store, code: Code, now: Time, ttl: Time)
    requires Agree(store) && ttl > 0 && Visited(store, code, now).Target?
    ensures var r := Visit(store, code, now, ttl);
            && r.table == store.table && code in r.cache && now < r.cache[code].until
            && (r == store || r.cache[code].until == now + ttl)
            && forall later :: later < r.cache[code].until ==>
                 Visited(r, code, later) == Visited(Store(map[], r.cache), code, later) || r.table[code].longUrl == ""
  {
  }

  /** The status of an update is true: 200 exactly when it is carried out, and otherwise what stood in its
      way. */
  lemma UpdateStatusIsTrue(table: Table, code: Code, changes: Changes, caller: Caller, gate: Gate)
    ensures var status := UpdateStatus(table, code, changes, caller, gate);
            && (status == 200 <==> Accepted(table, code, changes, caller, gate))
            && (status != 200 ==>
                  || (status == 400 && (changes == Changes(None, None, None, None, None) || changes.alias == Some("")))
                  || (status == 404 && (code !in table || !(caller.admin || (caller.id.Some? && table[code].owner == caller.id))))
                  || (status == 410 && code in table && !table[code].active)
                  || (status == 409 && changes.alias.Some? && changes.alias.value != code && changes.alias.value in table)
                  || (caller.id.Some? && gate.Forbidden? && status == gate.status))
  {
  }
}
