/**
 The run-once backfill of webhook subscriptions, runDeviceWebhookSubscriptionsMigrations in
 internal/whatsapp/migration.go, with crashes between any two statements.
 */
module Migration {
  import opened Common

  datatype Legacy = Legacy(url: string, secret: string)

  datatype Sub = Sub(secret: string, events: string)

  /** `decrypt` is the cipher, if there is one; it may fail. */
  datatype Cipher = NoCipher | Cipher(decrypt: string -> Option<string>)

  /** The tables; `legacy` has the account as its key, `subs` the account and url. `created` says
      the new tables exist, `seeded` that the marker row does. */
  datatype Tables = Tables(legacy: map<string, Legacy>, subs: map<(string, string), Sub>, created: bool, seeded: bool)

  /** A legacy secret that decrypts to nothing, or not at all, becomes no secret. */
  function NormalSecret(c: Cipher, secret: string): string {
    if c.Cipher? && secret != "" && (c.decrypt(secret) == None || c.decrypt(secret) == Some("")) then "" else secret
  }

  datatype Pending = Pending(jid: string, url: string, secret: string)

  /** INSERT ... ON CONFLICT DO NOTHING. */
  function Insert(subs: map<(string, string), Sub>, p: Pending): map<(string, string), Sub> {
    if (p.jid, p.url) in subs then subs else subs[(p.jid, p.url) := Sub(p.secret, "")]
  }

  function InsertAll(subs: map<(string, string), Sub>, ps: seq<Pending>): map<(string, string), Sub> {
    if ps == [] then subs else Insert(InsertAll(subs, ps[..|ps| - 1]), ps[|ps| - 1])
  }

  /** The legacy table in some order, each row once. */
  ghost predicate Enumerates(order: seq<string>, legacy: map<string, Legacy>) {
    && (forall j :: j in legacy <==> j in order)
    && forall i, k :: 0 <= i < k < |order| ==> order[i] != order[k]
  }

  function Rows(c: Cipher, legacy: map<string, Legacy>, order: seq<string>): seq<Pending>
    requires forall j :: j in order ==> j in legacy
  {
    seq(|order|, i requires 0 <= i < |order| => Pending(order[i], legacy[order[i]].url,
        NormalSecret(c, legacy[order[i]].secret)))
  }

  class Database {
    var tables: Tables
    const cipher: Cipher

    constructor (tables: Tables, cipher: Cipher)
      ensures this.tables == tables && this.cipher == cipher
    {
      this.tables, this.cipher := tables, cipher;
    }

    /** One start-up's migration. `order` is the order the rows are read in, `cut` the number of
        statements that run before the process dies; `finished` is whether it got to the end. */
    method RunMigration(order: seq<string>, cut: nat) returns (finished: bool)
      requires Enumerates(order, tables.legacy)
      modifies this`tables
      ensures tables == Startup(cipher, old(tables), order, cut).0
      ensures finished == Startup(cipher, old(tables), order, cut).1
    {
      if cut < 1 { return false; }
      tables := tables.(created := true);
      if cut < 2 { return false; }
      if tables.seeded { return true; }
      if cut < 3 { return false; }
      ghost var rows := Rows(cipher, tables.legacy, order);
      var pending: seq<Pending> := [];
      var i := 0;
      while i < |order|
        invariant 0 <= i <= |order| && pending == rows[..i]
        invariant tables == old(tables).(created := true)
      {
        hide Startup, InsertAll, Insert;
        var l := tables.legacy[order[i]];
        var secret := l.secret;
        if cipher.Cipher? && secret != "" {
          var plain := cipher.decrypt(secret);
          if plain == None || plain == Some("") {
            secret := "";
          }
        }
        pending := pending + [Pending(order[i], l.url, secret)];
        i := i + 1;
      }
      assert pending == rows;
      i := 0;
      while i < |pending|
        invariant 0 <= i <= |pending| && i <= cut - 3
        invariant tables == old(tables).(created := true, subs := InsertAll(old(tables).subs, rows[..i]))
      {
        if i == cut - 3 { return false; }
        hide Startup, Rows;
        assert rows[..i + 1][..i] == rows[..i];
        tables := tables.(subs := Insert(tables.subs, pending[i]));
        i := i + 1;
      }
      assert rows[..i] == rows;
      if cut == |pending| + 3 { return false; }
      tables := tables.(seeded := true);
      return true;
    }
  }

  /** What one start-up leaves behind, and whether it finished. */
  function Startup(c: Cipher, t: Tables, order: seq<string>, cut: nat): (Tables, bool)
    requires forall j :: j in order ==> j in t.legacy
  {
    var u := t.(created := true);
    if cut < 1 then (t, false)
    else if cut < 2 then (u, false)
    else if t.seeded then (u, true)
    else if cut < 3 then (u, false)
    else
      var rows := Rows(c, t.legacy, order);
      if cut - 3 <= |rows| then (u.(subs := InsertAll(t.subs, rows[..cut - 3])), false)
      else (u.(subs := InsertAll(t.subs, rows), seeded := true), true)
  }

  // ---- crash safety ----

  /** Every legacy webhook as a subscription to all events. */
  ghost function LegacySubs(c: Cipher, legacy: map<string, Legacy>): map<(string, string), Sub> {
    map j | j in legacy :: (j, legacy[j].url) := Sub(NormalSecret(c, legacy[j].secret), "")
  }

  /** What the backfill is for: the legacy webhooks are there unless already set otherwise. */
  ghost function Backfilled(c: Cipher, legacy: map<string, Legacy>, subs: map<(string, string), Sub>)
    : map<(string, string), Sub>
  {
    LegacySubs(c, legacy) + subs
  }

  /** Nothing set before is changed and nothing but legacy webhooks is added. */
  ghost predicate Between(c: Cipher, t: Tables, subs: map<(string, string), Sub>) {
    && (forall k :: k in t.subs ==> k in subs && subs[k] == t.subs[k])
    && (forall k :: k in subs ==> k in Backfilled(c, t.legacy, t.subs) && subs[k] == Backfilled(c, t.legacy, t.subs)[k])
  }

  lemma InsertStaysBetween(c: Cipher, t: Tables, subs: map<(string, string), Sub>, jid: string)
    requires Between(c, t, subs) && jid in t.legacy
    ensures var p := Pending(jid, t.legacy[jid].url, NormalSecret(c, t.legacy[jid].secret));
      Between(c, t, Insert(subs, p)) && Insert(subs, p).Keys == subs.Keys + {(p.jid, p.url)}
  {
  }

  lemma {:induction false} InsertsStayBetween(c: Cipher, t: Tables, subs: map<(string, string), Sub>,
      order: seq<string>, n: nat)
    requires Between(c, t, subs) && (forall j :: j in order ==> j in t.legacy) && n <= |order|
    ensures var rows := Rows(c, t.legacy, order)[..n];
      && Between(c, t, InsertAll(subs, rows))
      && (forall k :: k in subs ==> k in InsertAll(subs, rows))
      && forall i :: 0 <= i < n ==> (order[i], t.legacy[order[i]].url) in InsertAll(subs, rows)
  {
    hide Between, Insert;
    var all := Rows(c, t.legacy, order);
    if n > 0 {
      InsertsStayBetween(c, t, subs, order, n - 1);
      assert all[..n][..n - 1] == all[..n - 1];
      InsertStaysBetween(c, t, InsertAll(subs, all[..n - 1]), order[n - 1]);
    }
  }

  lemma AllInserted(c: Cipher, t: Tables, subs: map<(string, string), Sub>, order: seq<string>)
    requires Between(c, t, subs) && Enumerates(order, t.legacy)
    ensures InsertAll(subs, Rows(c, t.legacy, order)) == Backfilled(c, t.legacy, t.subs)
  {
    var rows := Rows(c, t.legacy, order);
    InsertsStayBetween(c, t, subs, order, |order|);
    assert rows[..|order|] == rows;
    var v := InsertAll(subs, rows);
    forall k | k in Backfilled(c, t.legacy, t.subs) ensures k in v {
      if k !in t.subs {
        var j :| j in t.legacy && k == (j, t.legacy[j].url);
        assert j in order;
      }
    }
  }

  lemma StartupFromBetween(c: Cipher, t: Tables, u: Tables, order: seq<string>, cut: nat)
    requires !t.seeded && u.legacy == t.legacy && !u.seeded && Between(c, t, u.subs) && Enumerates(order, t.legacy)
    ensures var (v, finished) := Startup(c, u, order, cut);
      && v.legacy == t.legacy && Between(c, t, v.subs) && v.seeded == finished
      && (finished ==> v.subs == Backfilled(c, t.legacy, t.subs))
  {
    if cut >= 3 {
      if cut - 3 <= |order| {
        InsertsStayBetween(c, t, u.subs, order, cut - 3);
      } else {
        AllInserted(c, t, u.subs, order);
        AllBetween(c, t);
      }
    }
  }

  lemma AllBetween(c: Cipher, t: Tables)
    ensures Between(c, t, Backfilled(c, t.legacy, t.subs))
  {
  }

  lemma StartIsBetween(c: Cipher, t: Tables)
    ensures Between(c, t, t.subs)
  {
  }

  lemma MarkerStopsStartup(c: Cipher, t: Tables, order: seq<string>, cut: nat)
    requires t.seeded && Enumerates(order, t.legacy)
    ensures var u := Startup(c, t, order, cut).0; u.seeded && u.legacy == t.legacy && u.subs == t.subs
  {
  }

  /** Start-ups one after the other, each with its own order and its own crash. */
  ghost predicate Startups(c: Cipher, states: seq<Tables>, orders: seq<seq<string>>, cuts: seq<nat>) {
    && |states| == |orders| + 1 && |cuts| == |orders|
    && forall i :: 0 <= i < |orders| ==>
         Enumerates(orders[i], states[i].legacy) && states[i + 1] == Startup(c, states[i], orders[i], cuts[i]).0
  }

  /** One finished start-up without the marker, spelled out: what was set is unchanged, each legacy
      webhook that was not set is there for all events, with its secret unless the secret decrypts to
      nothing or not at all, and nothing else is there. */
  lemma FinishedStartup(c: Cipher, t: Tables, order: seq<string>, cut: nat)
    requires !t.seeded && Enumerates(order, t.legacy) && Startup(c, t, order, cut).1
    ensures var v := Startup(c, t, order, cut).0;
      && v.seeded && v.created && v.legacy == t.legacy
      && (forall k :: k in t.subs ==> k in v.subs && v.subs[k] == t.subs[k])
      && (forall j :: j in t.legacy && (j, t.legacy[j].url) !in t.subs ==>
            && (j, t.legacy[j].url) in v.subs && v.subs[(j, t.legacy[j].url)].events == ""
            && Kept(c, t.legacy[j].secret, v.subs[(j, t.legacy[j].url)].secret))
      && (forall k :: k in v.subs && k !in t.subs ==> k.0 in t.legacy && k.1 == t.legacy[k.0].url)
  {
    FinishedIsBackfilled(c, t, order, cut);
    hide *;
    BackfilledMeans(c, t.legacy, t.subs);
  }

  lemma FinishedIsBackfilled(c: Cipher, t: Tables, order: seq<string>, cut: nat)
    requires !t.seeded && Enumerates(order, t.legacy) && Startup(c, t, order, cut).1
    ensures var v := Startup(c, t, order, cut).0;
      v.seeded && v.created && v.legacy == t.legacy && v.subs == Backfilled(c, t.legacy, t.subs)
  {
    StartIsBetween(c, t);
    StartupFromBetween(c, t, t, order, cut);
    hide Backfilled, InsertAll, Rows;
  }

  lemma BackfilledMeans(c: Cipher, legacy: map<string, Legacy>, subs: map<(string, string), Sub>)
    ensures var all := Backfilled(c, legacy, subs);
      && (forall k :: k in subs ==> k in all && all[k] == subs[k])
      && (forall j :: j in legacy && (j, legacy[j].url) !in subs ==>
            && (j, legacy[j].url) in all && all[(j, legacy[j].url)].events == ""
            && Kept(c, legacy[j].secret, all[(j, legacy[j].url)].secret))
      && (forall k :: k in all && k !in subs ==> k.0 in legacy && k.1 == legacy[k.0].url)
  {
    var all := Backfilled(c, legacy, subs);
    forall j | j in legacy && (j, legacy[j].url) !in subs
      ensures (j, legacy[j].url) in all
      ensures all[(j, legacy[j].url)] == Sub(NormalSecret(c, legacy[j].secret), "")
    {
      assert (j, legacy[j].url) in LegacySubs(c, legacy);
    }
  }

  /** A secret as it is stored and as it is carried over. */
  ghost predicate Kept(c: Cipher, secret: string, kept: string) {
    match c
    case NoCipher => kept == secret
    case Cipher(decrypt) =>
      if secret == "" then kept == ""
      else match decrypt(secret)
        case None => kept == ""
        case Some(plain) => kept == if plain == "" then "" else secret
  }

  /** A start-up on a marked database changes nothing, and neither does one that dies before its first
      insert; each insert that runs is one more legacy webhook. */
  lemma CutStartup(c: Cipher, t: Tables, order: seq<string>, cut: nat)
    requires Enumerates(order, t.legacy)
    ensures var (v, finished) := Startup(c, t, order, cut);
      && v.legacy == t.legacy
      && (t.seeded || cut <= 3 ==> v.subs == t.subs || (order == [] && v.seeded))
      && (finished <==> cut >= 2 && (t.seeded || cut > 3 + |order|))
      && (v.seeded <==> t.seeded || finished) && (v.created <==> t.created || cut >= 1)
      && forall i :: 0 <= i < |order| && !t.seeded && cut - 3 > i ==> (order[i], t.legacy[order[i]].url) in v.subs
  {
    if !t.seeded && cut > 3 {
      StartIsBetween(c, t);
      InsertsStayBetween(c, t, t.subs, order, Min(cut - 3, |order|));
    }
    if !t.seeded && cut > 3 + |order| { assert Rows(c, t.legacy, order)[..|order|] == Rows(c, t.legacy, order); }
  }

  /** However often the migration was interrupted and at whatever statement, once it has finished
      the subscriptions are those of a single uninterrupted run, in whatever order the rows came. */
  lemma {:induction false} CrashSafe(c: Cipher, states: seq<Tables>, orders: seq<seq<string>>, cuts: seq<nat>)
    requires Startups(c, states, orders, cuts) && !states[0].seeded
    ensures var last := states[|orders|];
      && last.legacy == states[0].legacy && Between(c, states[0], last.subs)
      && (last.seeded ==> last.subs == Backfilled(c, states[0].legacy, states[0].subs))
  {
    hide Between, Backfilled, Startup, Enumerates;
    if orders == [] {
      StartIsBetween(c, states[0]);
    } else {
      var n := |orders| - 1;
      CrashSafe(c, states[..n + 1], orders[..n], cuts[..n]);
      if states[n].seeded {
        MarkerStopsStartup(c, states[n], orders[n], cuts[n]);
      } else {
        StartupFromBetween(c, states[0], states[n], orders[n], cuts[n]);
      }
    }
  }

  // ---- life after the marker ----

  datatype Op =
    | Start(order: seq<string>, cut: nat)
    | Set(jid: string, url: string, secret: string, events: string)
    | Delete(jid: string, url: string)
    | DeleteAll(jid: string)
    | ChangeLegacy(rows: map<string, Legacy>)

  ghost predicate Legal(t: Tables, op: Op) { op.Start? ==> Enumerates(op.order, t.legacy) }

  ghost function Apply(c: Cipher, t: Tables, op: Op): Tables
    requires Legal(t, op)
  {
    match op
    case Start(order, cut) => Startup(c, t, order, cut).0
    case Set(jid, url, secret, events) => t.(subs := t.subs[(jid, url) := Sub(secret, events)])
    case Delete(jid, url) => t.(subs := t.subs - {(jid, url)})
    case DeleteAll(jid) => t.(subs := map k | k in t.subs && k.0 != jid :: t.subs[k])
    case ChangeLegacy(rows) => t.(legacy := rows)
  }

  ghost predicate History(c: Cipher, states: seq<Tables>, ops: seq<Op>) {
    && |states| == |ops| + 1
    && forall i :: 0 <= i < |ops| ==> Legal(states[i], ops[i]) && states[i + 1] == Apply(c, states[i], ops[i])
  }

  /** Once the marker is there it stays, no start-up touches a subscription, and a subscription
      that is gone stays gone until somebody sets it again. */
  lemma {:induction false} DeletedStaysDeleted(c: Cipher, states: seq<Tables>, ops: seq<Op>, jid: string, url: string)
    requires History(c, states, ops) && states[0].seeded && (jid, url) !in states[0].subs
    requires forall i :: 0 <= i < |ops| ==> !(ops[i].Set? && ops[i].jid == jid && ops[i].url == url)
    ensures states[|ops|].seeded && (jid, url) !in states[|ops|].subs
    ensures forall i :: 0 <= i < |ops| && ops[i].Start? && states[i].seeded ==> states[i + 1].subs == states[i].subs
  {
    if ops != [] {
      var n := |ops| - 1;
      DeletedStaysDeleted(c, states[..n + 1], ops[..n], jid, url);
      assert states[n + 1] == Apply(c, states[n], ops[n]);
    }
  }

  /** A finished start-up brings a missing legacy webhook back exactly when the marker is absent. */
  lemma ReappearsIffUnmarked(c: Cipher, t: Tables, order: seq<string>, cut: nat, jid: string)
    requires Enumerates(order, t.legacy) && Startup(c, t, order, cut).1
    requires jid in t.legacy && (jid, t.legacy[jid].url) !in t.subs
    ensures (jid, t.legacy[jid].url) in Startup(c, t, order, cut).0.subs <==> !t.seeded
  {
    if !t.seeded { StartupFromBetween(c, t, t, order, cut); }
  }
}
