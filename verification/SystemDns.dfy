// The machine's DNS settings as a resource that many tunnels share, with the
// user's own settings journaled on disk (internal/network/dns.go, dns_journal.go).
module SystemDns {
  import opened Common

  type Service = string
  type Holder = string

  datatype Field = Servers | Search

  /** One setting of one network service. */
  datatype Setting = Setting(svc: Service, field: Field)

  type Values = map<Setting, seq<string>>

  /** What a crash leaves behind: the machine's settings and the journal. */
  datatype Disk = Disk(settings: Values, journal: Option<Values>)

  /** The string helpers: trimming, and what counts as an IP address. */
  datatype Text = Text(trim: string -> string, isIP: string -> bool)

  function At(v: Values, s: Setting): seq<string> { if s in v then v[s] else [] }

  // ---- the union of the holders' entries ----

  /** The entries that belong to one field: addresses or search domains. */
  function Part(text: Text, entries: seq<string>, field: Field): seq<string> {
    if entries == [] then []
    else
      var e := text.trim(entries[|entries|-1]);
      Part(text, entries[..|entries|-1], field) + (if e != "" && text.isIP(e) == field.Servers? then [e] else [])
  }

  /** list holds, trimmed, the entries at these positions, from first to last. */
  ghost predicate Picks(text: Text, entries: seq<string>, at: seq<nat>, list: seq<string>) {
    && |at| == |list|
    && (forall k | 0 <= k < |at| :: at[k] < |entries| && list[k] == text.trim(entries[at[k]]))
    && (forall k, l | 0 <= k < l < |at| :: at[k] < at[l])
  }

  /** list holds, trimmed and in their order, the entries that are not blank and are or are not an address. */
  ghost predicate Sifted(text: Text, entries: seq<string>, addresses: bool, list: seq<string>) {
    exists at: seq<nat> :: Picks(text, entries, at, list) &&
      forall i | 0 <= i < |entries| :: i in at <==> text.trim(entries[i]) != "" && text.isIP(text.trim(entries[i])) == addresses
  }

  lemma {:induction false} PartIsSifted(text: Text, entries: seq<string>)
    ensures Sifted(text, entries, true, Part(text, entries, Servers)) && Sifted(text, entries, false, Part(text, entries, Search))
  {
    var _ := PartPicks(text, entries, Servers);
    var _ := PartPicks(text, entries, Search);
  }

  /** The positions of a field's entries. */
  lemma {:induction false} PartPicks(text: Text, entries: seq<string>, field: Field) returns (at: seq<nat>)
    ensures Picks(text, entries, at, Part(text, entries, field))
    ensures forall i | 0 <= i < |entries| :: i in at <==> text.trim(entries[i]) != "" && (text.isIP(text.trim(entries[i])) <==> field == Servers)
  {
    at := [];
    if entries != [] {
      var n := |entries| - 1;
      at := PartPicks(text, entries[..n], field);
      var e := text.trim(entries[n]);
      if e != "" && (text.isIP(e) <==> field == Servers) {
        at := at + [n];
      }
    }
  }

  /** Sorts the entries by what they are: every one that is not blank goes to one list, in their order. */
  method SplitDNSEntries(text: Text, entries: seq<string>) returns (servers: seq<string>, search: seq<string>)
    ensures servers == Part(text, entries, Servers) && search == Part(text, entries, Search)
    ensures Sifted(text, entries, true, servers) && Sifted(text, entries, false, search)
    ensures (forall e | e in servers :: e != "" && text.isIP(e)) && (forall e | e in search :: e != "" && !text.isIP(e))
    ensures forall i | 0 <= i < |entries| && text.trim(entries[i]) != "" ::
      if text.isIP(text.trim(entries[i])) then text.trim(entries[i]) in servers else text.trim(entries[i]) in search
  {
    servers, search := [], [];
    PartIsSifted(text, entries);
    for i := 0 to |entries|
      invariant servers == Part(text, entries[..i], Servers) && search == Part(text, entries[..i], Search)
    {
      assert entries[..i+1][..i] == entries[..i];
      var e := text.trim(entries[i]);
      if e == "" {
        continue;
      }
      if text.isIP(e) {
        servers := servers + [e];
      } else {
        search := search + [e];
      }
    }
    assert entries[..|entries|] == entries;
    SiftedIs(text, entries, true, servers);
    SiftedIs(text, entries, false, search);
  }

  /** The members of a sifted list. */
  lemma SiftedIs(text: Text, entries: seq<string>, addresses: bool, list: seq<string>)
    requires Sifted(text, entries, addresses, list)
    ensures forall e :: e in list <==> e != "" && text.isIP(e) == addresses && Lists(text, entries, e)
  {
    var at: seq<nat> :| Picks(text, entries, at, list) &&
      forall i | 0 <= i < |entries| :: i in at <==> text.trim(entries[i]) != "" && text.isIP(text.trim(entries[i])) == addresses;
    forall e ensures e in list <==> e != "" && text.isIP(e) == addresses && Lists(text, entries, e) {
      if e in list {
        var k :| 0 <= k < |list| && list[k] == e;
        assert at[k] in at;
      }
      if e != "" && text.isIP(e) == addresses && Lists(text, entries, e) {
        var i :| 0 <= i < |entries| && text.trim(entries[i]) == e;
        var k :| 0 <= k < |at| && at[k] == i;
        assert list[k] == e;
      }
    }
  }

  /** What a field gets of the entries. */
  lemma PartLists(text: Text, entries: seq<string>, field: Field)
    ensures forall e :: e in Part(text, entries, field) <==> e != "" && text.isIP(e) == field.Servers? && Lists(text, entries, e)
  {
    PartIsSifted(text, entries);
    hide Part, Sifted, Lists;
    SiftedIs(text, entries, field.Servers?, Part(text, entries, field));
  }

  /** One of the entries, trimmed, is e. */
  ghost predicate Lists(text: Text, entries: seq<string>, e: string) {
    exists i | 0 <= i < |entries| :: text.trim(entries[i]) == e
  }

  /** Appends the values that are not there yet. */
  function Merge(sofar: seq<string>, values: seq<string>): seq<string> {
    if values == [] then sofar
    else
      var r := Merge(sofar, values[..|values|-1]);
      var v := values[|values|-1];
      if v in r then r else r + [v]
  }

  method MergeInto(sofar: seq<string>, values: seq<string>) returns (r: seq<string>)
    ensures r == Merge(sofar, values)
  {
    r := sofar;
    for i := 0 to |values|
      invariant r == Merge(sofar, values[..i])
    {
      assert values[..i+1][..i] == values[..i];
      if values[i] !in r {
        r := r + [values[i]];
      }
    }
    assert values[..|values|] == values;
  }

  /** Every holder's values of a field, newest holder first, without repetition. */
  function Union(text: Text, order: seq<Holder>, entries: map<Holder, seq<string>>, field: Field): seq<string>
    requires forall h | h in order :: h in entries
  {
    if order == [] then []
    else Merge(Union(text, order[..|order|-1], entries, field), Part(text, entries[order[|order|-1]], field))
  }

  ghost predicate NoRepeats<T>(s: seq<T>) { forall i, j | 0 <= i < j < |s| :: s[i] != s[j] }

  lemma {:induction false} MergeIs(sofar: seq<string>, values: seq<string>)
    requires NoRepeats(sofar)
    ensures var r := Merge(sofar, values);
      NoRepeats(r) && sofar <= r && forall v :: v in r <==> v in sofar || v in values
  {
    if values != [] {
      MergeIs(sofar, values[..|values|-1]);
      assert values == values[..|values|-1] + [values[|values|-1]];
    }
  }

  /** The union holds exactly the holders' values, once each, and starts with the newest holder's. */
  lemma {:induction false} UnionIs(text: Text, order: seq<Holder>, entries: map<Holder, seq<string>>, field: Field)
    requires forall h | h in order :: h in entries
    ensures var r := Union(text, order, entries, field);
      && NoRepeats(r)
      && (forall v :: v in r <==> exists h | h in order :: v in Part(text, entries[h], field))
      && (order != [] ==> Merge([], Part(text, entries[order[0]], field)) <= r)
  {
    if order != [] {
      var rest, last := order[..|order|-1], order[|order|-1];
      assert order == rest + [last];
      UnionIs(text, rest, entries, field);
      MergeIs(Union(text, rest, entries, field), Part(text, entries[last], field));
      MergeIs([], Part(text, entries[last], field));
    }
  }

  /** The union of both fields, holder by holder. */
  method UnionOf(text: Text, order: seq<Holder>, entries: map<Holder, seq<string>>) returns (servers: seq<string>, search: seq<string>)
    requires forall h | h in order :: h in entries
    ensures servers == Union(text, order, entries, Servers) && search == Union(text, order, entries, Search)
  {
    servers, search := [], [];
    for i := 0 to |order|
      invariant servers == Union(text, order[..i], entries, Servers) && search == Union(text, order[..i], entries, Search)
    {
      assert order[..i+1][..i] == order[..i];
      var s, d := SplitDNSEntries(text, entries[order[i]]);
      servers := MergeInto(servers, s);
      search := MergeInto(search, d);
    }
    assert order[..|order|] == order;
  }

  // ---- crash safety ----

  /** A setting that differs from the user's is in the journal, and the journal holds only the user's. */
  ghost predicate Safe(d: Disk, orig: Values) {
    && (forall s :: At(d.settings, s) != At(orig, s) ==> d.journal.Some? && s in d.journal.value)
    && (d.journal.Some? ==> forall s | s in d.journal.value :: d.journal.value[s] == At(orig, s))
  }

  ghost predicate AllSafe(trace: seq<Disk>, from: nat, to: nat, orig: Values)
    requires to <= |trace|
  {
    forall i | from <= i < to :: Safe(trace[i], orig)
  }

  /** What replaying the journal makes of the disk. */
  function Recovered(d: Disk): Disk {
    Disk(if d.journal.Some? then d.settings + d.journal.value else d.settings, None)
  }

  /** A state is safe exactly if replaying its journal brings back every setting of the user's. */
  lemma SafeIffRecoverable(d: Disk, orig: Values)
    ensures Safe(d, orig) <==> forall s :: At(Recovered(d).settings, s) == At(orig, s)
  {
    if forall s :: At(Recovered(d).settings, s) == At(orig, s) {
      forall s ensures At(d.settings, s) != At(orig, s) ==> d.journal.Some? && s in d.journal.value {
        assert At(Recovered(d).settings, s) == At(orig, s);
      }
      if d.journal.Some? {
        forall s | s in d.journal.value ensures d.journal.value[s] == At(orig, s) {
          assert At(Recovered(d).settings, s) == At(orig, s);
        }
      }
    } else {
      var s :| At(Recovered(d).settings, s) != At(orig, s);
      assert At(d.settings, s) == At(orig, s) || (d.journal.Some? && s in d.journal.value) || !Safe(d, orig);
    }
  }

  /** Overriding a journaled setting is safe. */
  lemma OverrideSafe(d: Disk, orig: Values, s: Setting, values: seq<string>)
    requires Safe(d, orig) && d.journal.Some? && s in d.journal.value
    ensures Safe(d.(settings := d.settings[s := values]), orig)
  {
    forall t ensures At(d.settings[s := values], t) == if t == s then values else At(d.settings, t) {}
  }

  lemma NothingYet(trace: seq<Disk>, orig: Values)
    ensures AllSafe(trace, |trace|, |trace|, orig)
  {}

  lemma SafeGrows(trace: seq<Disk>, from: nat, d: Disk, orig: Values)
    requires from <= |trace| && AllSafe(trace, from, |trace|, orig) && Safe(d, orig)
    ensures AllSafe(trace + [d], from, |trace| + 1, orig)
  {}

  function Drop(order: seq<Holder>, h: Holder): seq<Holder> {
    if order == [] then [] else (if order[0] == h then [] else [order[0]]) + Drop(order[1..], h)
  }

  lemma {:induction false} DropIs(order: seq<Holder>, h: Holder)
    requires NoRepeats(order)
    ensures var r := Drop(order, h); NoRepeats(r) && forall x :: x in r <==> x in order && x != h
    ensures h !in order ==> Drop(order, h) == order
  {
    if order != [] {
      TailNoRepeats(order);
      DropIs(order[1..], h);
      DropUnfolds(order, h);
      hide Drop;
      if order[0] != h { ConsNoRepeats(order[0], Drop(order[1..], h)); }
    }
  }

  lemma TailNoRepeats(order: seq<Holder>)
    requires NoRepeats(order) && order != []
    ensures order == [order[0]] + order[1..] && order[0] !in order[1..] && NoRepeats(order[1..])
  {
    assert forall i, j | 0 <= i < j < |order[1..]| :: order[1..][i] == order[i+1] && order[1..][j] == order[j+1];
  }

  lemma DropUnfolds(order: seq<Holder>, h: Holder)
    requires order != []
    ensures Drop(order, h) == if order[0] == h then Drop(order[1..], h) else [order[0]] + Drop(order[1..], h)
  {
    assert [] + Drop(order[1..], h) == Drop(order[1..], h);
  }

  lemma ConsNoRepeats(h: Holder, rest: seq<Holder>)
    requires NoRepeats(rest) && h !in rest
    ensures NoRepeats([h] + rest)
  {}

  lemma PutBack(m: map<Holder, seq<string>>, m0: map<Holder, seq<string>>, h: Holder)
    requires h in m0 && m - {h} == m0 - {h}
    ensures m[h := m0[h]] == m0
  {
    forall x ensures (x in m[h := m0[h]] <==> x in m0) && (x in m0 ==> m[h := m0[h]][x] == m0[x]) {
      assert x in m - {h} <==> x in m0 - {h};
      if x in m0 && x != h {
        assert (m - {h})[x] == (m0 - {h})[x];
      }
    }
  }

  lemma DropNewest(order: seq<Holder>, h: Holder)
    requires NoRepeats(order) && h !in order
    ensures Drop([h] + order, h) == order
  {
    assert ([h] + order)[1..] == order;
    DropIs(order, h);
  }

  /** saved holds the user's settings of whole services, and every other setting is the user's. */
  ghost predicate Baseline(saved: Values, settings: Values, orig: Values) {
    && (forall s | s in saved :: saved[s] == At(orig, s))
    && (forall svc :: Setting(svc, Servers) in saved <==> Setting(svc, Search) in saved)
    && (forall s | s !in saved :: At(settings, s) == At(orig, s))
  }

  function Journaled(saved: Values): Option<Values> { if saved == map[] then None else Some(saved) }

  /** saved with the current settings of one more service. */
  function Captured(saved: Values, settings: Values, svc: Service): Values {
    saved[Setting(svc, Servers) := At(settings, Setting(svc, Servers))][Setting(svc, Search) := At(settings, Setting(svc, Search))]
  }

  lemma CaptureOne(saved: Values, settings: Values, orig: Values, svc: Service)
    requires Baseline(saved, settings, orig) && Setting(svc, Servers) !in saved
    ensures Baseline(Captured(saved, settings, svc), settings, orig)
    ensures forall s :: s in Captured(saved, settings, svc) <==> s in saved || s.svc == svc
  {
    forall s ensures s in Captured(saved, settings, svc) <==> s in saved || s.svc == svc {
      match s.field
      case Servers => assert s == Setting(s.svc, Servers);
      case Search => assert s == Setting(s.svc, Search);
    }
  }

  /** Overriding saved settings keeps the baseline. */
  lemma OverrideKeepsBaseline(saved: Values, before: Values, after: Values, orig: Values)
    requires Baseline(saved, before, orig) && forall s | s !in saved :: At(after, s) == At(before, s)
    ensures Baseline(saved, after, orig)
  {}

  lemma BaselineSafe(saved: Values, settings: Values, orig: Values)
    requires Baseline(saved, settings, orig)
    ensures Safe(Disk(settings, Journaled(saved)), orig)
  {}

  lemma WholeServices(saved: Values, settings: Values, orig: Values, svc: Service)
    requires Baseline(saved, settings, orig) && Setting(svc, Servers) in saved
    ensures forall f :: Setting(svc, f) in saved
  {
    forall f ensures Setting(svc, f) in saved {
      if f == Search { assert Setting(svc, Search) in saved; }
    }
  }

  class SystemDNS {
    const text: Text
    ghost const orig: Values             // the user's own settings
    var settings: Values                 // the machine's
    var journal: Option<Values>          // on disk
    var saved: Values                    // the baseline in memory
    var order: seq<Holder>               // newest first
    var entries: map<Holder, seq<string>>
    ghost var trace: seq<Disk>           // the disk after every write

    /** The setting that the holders, or for an empty field the baseline, call for. */
    function Wanted(s: Setting): seq<string>
      requires forall h | h in order :: h in entries
      reads this
    {
      var u := Union(text, order, entries, s.field);
      if u == [] then At(saved, s) else u
    }

    ghost predicate HoldersOk() reads this { NoRepeats(order) && forall h :: h in order <==> h in entries }

    ghost predicate BaselineOk() reads this { Baseline(saved, settings, orig) && journal == Journaled(saved) }

    ghost predicate Valid()
      reads this
    {
      HoldersOk() && BaselineOk() && (order == [] ==> saved == map[])
    }

    /** Every listed service has what the holders call for; without holders everything is the user's. */
    ghost predicate InSync(services: seq<Service>)
      requires HoldersOk()
      reads this
    {
      if order == [] then forall s :: At(settings, s) == At(orig, s)
      else forall s: Setting | s.svc in services :: s in saved && At(settings, s) == Wanted(s)
    }

    /** Some holder lists the entry. */
    ghost predicate Listed(e: string)
      requires forall h | h in order :: h in entries
      reads this
    {
      exists h | h in order :: Lists(text, entries[h], e)
    }

    /** Some holder lists an address, or else a search domain. */
    ghost predicate AnyListed(addresses: bool)
      requires forall h | h in order :: h in entries
      reads this
    {
      exists e :: e != "" && text.isIP(e) == addresses && Listed(e)
    }

    /** The setting holds once each what the holders list of its kind, or, if that is nothing, what the user had. */
    ghost predicate HoldsListed(s: Setting, addresses: bool)
      requires forall h | h in order :: h in entries
      reads this
    {
      if AnyListed(addresses) then
        && NoRepeats(At(settings, s))
        && forall e :: e in At(settings, s) <==> e != "" && text.isIP(e) == addresses && Listed(e)
      else At(settings, s) == At(orig, s)
    }

    /** The servers of every service are the addresses listed, its search list the other entries. */
    ghost predicate AsListed(services: seq<Service>)
      requires HoldersOk()
      reads this
    {
      forall svc | svc in services :: HoldsListed(Setting(svc, Servers), true) && HoldsListed(Setting(svc, Search), false)
    }

    /** The union is made of what the holders list. */
    lemma UnionListed(field: Field)
      requires HoldersOk()
      ensures forall e :: e in Union(text, order, entries, field) <==> e != "" && text.isIP(e) == field.Servers? && Listed(e)
    {
      UnionIs(text, order, entries, field);
      forall h | h in order { PartLists(text, entries[h], field); }
      hide Union, Part, Lists, NoRepeats;
    }

    lemma SettingAsListed(s: Setting)
      requires HoldersOk() && BaselineOk() && s in saved && At(settings, s) == Wanted(s)
      ensures HoldsListed(s, s.field.Servers?)
    {
      UnionIs(text, order, entries, s.field);
      UnionListed(s.field);
      var u := Union(text, order, entries, s.field);
      hide Union, Lists, NoRepeats;
      if u == [] {
        assert !AnyListed(s.field.Servers?);
      } else {
        assert u[0] in u;
      }
    }

    /** Services in step have just what the holders list. */
    lemma InSyncAsListed(services: seq<Service>)
      requires HoldersOk() && BaselineOk() && order != [] && InSync(services)
      ensures AsListed(services)
    {
      hide BaselineOk, HoldsListed, Wanted;
      forall svc | svc in services ensures HoldsListed(Setting(svc, Servers), true) && HoldsListed(Setting(svc, Search), false) {
        assert Setting(svc, Servers).svc in services && Setting(svc, Search).svc in services;
        SettingAsListed(Setting(svc, Servers));
        SettingAsListed(Setting(svc, Search));
      }
    }

    /** A machine as the user has it, with no journal. */
    constructor (text: Text, settings: Values)
      ensures Valid() && InSync([]) && order == [] && this.settings == settings == orig
    {
      this.text, this.orig, this.settings := text, settings, settings;
      this.journal, this.saved, this.order, this.entries, this.trace := None, map[], [], map[], [];
    }

    /** A helper that starts on what a crash left behind. */
    constructor Restart(text: Text, ghost orig: Values, disk: Disk)
      ensures this.orig == orig && settings == disk.settings && journal == disk.journal
      ensures saved == map[] && order == [] && entries == map[] && trace == []
    {
      this.text, this.orig, this.settings, this.journal := text, orig, disk.settings, disk.journal;
      this.saved, this.order, this.entries, this.trace := map[], [], map[], [];
    }

    // ---- single writes ----

    /** networksetup: takes effect or is ignored. */
    method Write(s: Setting, values: seq<string>) returns (ok: bool)
      modifies this`settings, this`trace
      ensures settings == (if ok then old(settings)[s := values] else old(settings))
      ensures trace == old(trace) + [Disk(settings, journal)]
    {
      ok := *;
      if ok {
        settings := settings[s := values];
      }
      trace := trace + [Disk(settings, journal)];
    }

    method WriteJournal()
      modifies this`journal, this`trace
      ensures journal == Some(saved) && trace == old(trace) + [Disk(settings, journal)]
    {
      journal := Some(saved);
      trace := trace + [Disk(settings, journal)];
    }

    method RemoveJournal()
      modifies this`journal, this`trace
      ensures journal == None && trace == old(trace) + [Disk(settings, journal)]
    {
      journal := None;
      trace := trace + [Disk(settings, journal)];
    }

    /** Writes settings in any order, as parallel commands do; each is journaled. */
    method WriteAll(todo: Values) returns (failed: set<Setting>)
      requires journal.Some? && todo.Keys <= journal.value.Keys && Safe(Disk(settings, journal), orig)
      modifies this`settings, this`trace
      ensures old(trace) <= trace && AllSafe(trace, |old(trace)|, |trace|, orig) && Safe(Disk(settings, journal), orig)
      ensures failed <= todo.Keys
      ensures forall s :: At(settings, s) == if s in todo && s !in failed then todo[s] else At(old(settings), s)
    {
      hide Safe, AllSafe;
      failed := {};
      var left := todo.Keys;
      NothingYet(trace, orig);
      while left != {}
        invariant left <= todo.Keys && failed <= todo.Keys - left
        invariant old(trace) <= trace && AllSafe(trace, |old(trace)|, |trace|, orig) && Safe(Disk(settings, journal), orig)
        invariant forall s :: At(settings, s) == if s in todo && s !in left && s !in failed then todo[s] else At(old(settings), s)
      {
        var s :| s in left;
        left := left - {s};
        OverrideSafe(Disk(settings, journal), orig, s, todo[s]);
        ghost var before := trace;
        var ok := Write(s, todo[s]);
        SafeGrows(before, |old(trace)|, Disk(settings, journal), orig);
        if !ok {
          failed := failed + {s};
        }
      }
    }

    // ---- the operations, each under the package's lock ----

    /** Saves and journals the settings of services not seen before. */
    method CaptureBaseline(services: seq<Service>)
      requires BaselineOk()
      modifies this`saved, this`journal, this`trace
      ensures BaselineOk() && forall svc | svc in services :: Setting(svc, Servers) in saved
      ensures old(trace) <= trace && AllSafe(trace, |old(trace)|, |trace|, orig)
    {
      hide AllSafe, Safe, Baseline, Captured;
      var missing: seq<Service> := [];
      for i := 0 to |services|
        invariant forall svc :: svc in missing <==> svc in services[..i] && Setting(svc, Servers) !in saved
      {
        assert services[..i+1] == services[..i] + [services[i]];
        if Setting(services[i], Servers) !in saved && services[i] !in missing {
          missing := missing + [services[i]];
        }
      }
      assert services[..|services|] == services;
      NothingYet(trace, orig);
      if |missing| == 0 {
        return;
      }
      CaptureAll(missing);
      assert missing[0] in missing;
      WriteJournal();
      BaselineSafe(saved, settings, orig);
      SafeGrows(old(trace), |old(trace)|, Disk(settings, journal), orig);
    }

    method CaptureAll(missing: seq<Service>)
      requires Baseline(saved, settings, orig)
      modifies this`saved
      ensures Baseline(saved, settings, orig)
      ensures forall s :: s in saved <==> s in old(saved) || s.svc in missing
    {
      hide Baseline, Captured;
      for i := 0 to |missing|
        invariant Baseline(saved, settings, orig)
        invariant forall s :: s in saved <==> s in old(saved) || s.svc in missing[..i]
      {
        assert missing[..i+1] == missing[..i] + [missing[i]];
        if Setting(missing[i], Servers) !in saved {
          CaptureOne(saved, settings, orig, missing[i]);
          saved := Captured(saved, settings, missing[i]);
        } else {
          WholeServices(saved, settings, orig, missing[i]);
          assert forall s: Setting | s.svc == missing[i] :: s == Setting(missing[i], s.field);
        }
      }
      assert missing[..|missing|] == missing;
    }

    /** Sets the listed services, all of them saved, to what is wanted. */
    method PushUnion(services: seq<Service>) returns (failed: set<Setting>)
      requires HoldersOk() && BaselineOk() && services != [] && forall s: Setting | s.svc in services :: s in saved
      modifies this`settings, this`trace
      ensures BaselineOk()
      ensures old(trace) <= trace && AllSafe(trace, |old(trace)|, |trace|, orig)
      ensures forall s: Setting | s.svc in services && s !in failed :: At(settings, s) == Wanted(s)
    {
      hide AllSafe, Safe, Baseline, Union, NoRepeats;
      assert Setting(services[0], Servers) in saved;
      BaselineSafe(saved, settings, orig);
      var todo := map s | s in saved && s.svc in services :: Wanted(s);
      failed := WriteAll(todo);
      OverrideKeepsBaseline(saved, old(settings), settings, orig);
    }

    /** Gives every listed service the union, or its baseline where the union is empty. */
    method ApplyUnion(services: seq<Service>) returns (failed: set<Setting>)
      requires HoldersOk() && BaselineOk() && order != []
      modifies this`settings, this`saved, this`journal, this`trace
      ensures Valid()
      ensures old(trace) <= trace && AllSafe(trace, |old(trace)|, |trace|, orig)
      ensures forall s: Setting | s.svc in services :: s in saved && (s !in failed ==> At(settings, s) == Wanted(s))
      ensures failed == {} ==> InSync(services) && AsListed(services)
    {
      hide AllSafe, Safe, Baseline, Union, NoRepeats, HoldsListed;
      CaptureBaseline(services);
      if services == [] {
        return {};
      }
      forall s: Setting | s.svc in services ensures s in saved {
        WholeServices(saved, settings, orig, s.svc);
        assert s == Setting(s.svc, s.field);
      }
      ghost var before := trace;
      failed := PushUnion(services);
      SafeKept(before, trace, |old(trace)|, orig);
      SafeJoins(trace, |old(trace)|, |before|, orig);
      if failed == {} { InSyncAsListed(services); }
    }

    /** Some service that can be read at one of the two attempts reports the expected server. */
    method VerifyDNS(services: seq<Service>, expected: string, first: set<Service>, second: set<Service>) returns (ok: bool)
      ensures ok <==> exists svc | svc in services && svc in first + second :: expected in At(settings, Setting(svc, Servers))
    {
      ok := false;
      for attempt := 0 to 2
        invariant !ok && (attempt > 0 ==> !Shows(services, expected, first)) && (attempt > 1 ==> !Shows(services, expected, second))
      {
        var readable := if attempt == 0 then first else second;
        var found := false;
        for i := 0 to |services|
          invariant found <==> Shows(services[..i], expected, readable)
        {
          assert services[..i+1] == services[..i] + [services[i]];
          if services[i] in readable && expected in At(settings, Setting(services[i], Servers)) {
            found := true;
          }
        }
        assert services[..|services|] == services;
        if found {
          return true;
        }
      }
    }

    /** A readable service reports the server. */
    ghost predicate Shows(services: seq<Service>, expected: string, readable: set<Service>)
      reads this
    {
      exists svc | svc in services && svc in readable :: expected in At(settings, Setting(svc, Servers))
    }

    /** A write of the restore was ignored although the setting was not the user's. */
    ghost predicate Lost(before: Values, failed: set<Setting>) { exists s | s in failed :: At(before, s) != At(orig, s) }

    /** Nothing that the user did not set is left. */
    ghost predicate Original() reads this { forall s :: At(settings, s) == At(orig, s) }

    /**
     * Writes back a baseline, then drops the journal. Every state on the way is safe;
     * the last is safe, and everything the user's again, unless a needed write was lost.
     */
    method RestoreBaseline(baseline: Values) returns (failed: set<Setting>)
      requires Safe(Disk(settings, journal), orig) && journal == Journaled(baseline)
      modifies this`settings, this`journal, this`trace
      ensures old(trace) < trace && AllSafe(trace, |old(trace)|, |trace| - 1, orig) && trace[|trace|-1] == Disk(settings, journal)
      ensures journal == None && failed <= baseline.Keys
      ensures Original() <==> !Lost(old(settings), failed)
      ensures Safe(Disk(settings, journal), orig) <==> Original()
    {
      failed := {};
      NothingYet(trace, orig);
      if baseline != map[] {
        failed := WriteAll(baseline);
        RestoredFrom(old(settings), settings, baseline, failed, orig);
      }
      ghost var before := trace;
      RemoveJournal();
      SafeKept(before, trace, |old(trace)|, orig);
    }

    /** Re-applies the union, or restores the baseline when no holder is left. */
    method ReleaseOrReapply(services: seq<Service>) returns (failed: set<Setting>)
      requires HoldersOk() && BaselineOk()
      modifies this`settings, this`saved, this`journal, this`trace
      ensures old(trace) <= trace
      ensures order != [] ==> Valid() && AllSafe(trace, |old(trace)|, |trace|, orig)
      ensures order == [] ==> |trace| > |old(trace)| && AllSafe(trace, |old(trace)|, |trace| - 1, orig)
      ensures order == [] ==> trace[|trace|-1] == Disk(settings, journal) && saved == map[] && journal == None
      ensures order == [] ==> (Safe(Disk(settings, journal), orig) <==> !Lost(old(settings), failed))
      ensures failed == {} ==> Valid() && InSync(services)
    {
      hide AllSafe, Safe;
      if order != [] {
        failed := ApplyUnion(services);
        return;
      }
      BaselineSafe(saved, settings, orig);
      var baseline := saved;
      saved := map[];
      failed := RestoreBaseline(baseline);
    }

    // ---- holders ----

    /** Records a holder's entries; a new holder goes to the front. */
    method SetHolder(holder: Holder, es: seq<string>)
      requires HoldersOk()
      modifies this`order, this`entries
      ensures HoldersOk() && entries == old(entries)[holder := es]
      ensures order == if holder in old(entries) then old(order) else [holder] + old(order)
    {
      if holder !in entries {
        order := [holder] + order;
      }
      entries := entries[holder := es];
    }

    method RemoveHolder(holder: Holder) returns (present: bool)
      requires HoldersOk()
      modifies this`order, this`entries
      ensures HoldersOk() && present == (holder in old(entries))
      ensures order == Drop(old(order), holder) && entries == old(entries) - {holder}
      ensures !present ==> order == old(order)
    {
      DropIs(order, holder);
      if holder !in entries {
        assert entries - {holder} == entries;
        return false;
      }
      entries := entries - {holder};
      order := Drop(order, holder);
      return true;
    }

    /** Puts back what a failed SetDNS replaced. */
    method Unset(holder: Holder, prev: Option<seq<string>>, ghost order0: seq<Holder>, ghost entries0: map<Holder, seq<string>>)
      requires HoldersOk() && prev == (if holder in entries0 then Some(entries0[holder]) else None)
      requires holder in entries && entries - {holder} == entries0 - {holder}
      requires order == (if holder in entries0 then order0 else [holder] + order0)
      requires NoRepeats(order0) && forall h :: h in order0 <==> h in entries0
      modifies this`order, this`entries
      ensures HoldersOk() && order == order0 && entries == entries0
    {
      hide Drop, NoRepeats;
      if prev.Some? {
        PutBack(entries, entries0, holder);
        SetHolder(holder, prev.value);
      } else {
        var _ := RemoveHolder(holder);
        DropNewest(order0, holder);
        assert entries0 - {holder} == entries0;
      }
    }

    // ---- the public operations ----

    /** A failed SetDNS: the holders as they were, and their settings again. */
    method Rollback(holder: Holder, prev: Option<seq<string>>, services: seq<Service>,
                    ghost order0: seq<Holder>, ghost entries0: map<Holder, seq<string>>)
      returns (failed: set<Setting>)
      requires BaselineOk() && HoldersOk() && prev == (if holder in entries0 then Some(entries0[holder]) else None)
      requires holder in entries && entries - {holder} == entries0 - {holder}
      requires order == (if holder in entries0 then order0 else [holder] + order0)
      requires NoRepeats(order0) && forall h :: h in order0 <==> h in entries0
      modifies this`settings, this`saved, this`journal, this`trace, this`order, this`entries
      ensures HoldersOk() && order == order0 && entries == entries0
      ensures old(trace) <= trace
      ensures order != [] ==> Valid() && AllSafe(trace, |old(trace)|, |trace|, orig)
      ensures order == [] ==> |trace| > |old(trace)| && AllSafe(trace, |old(trace)|, |trace| - 1, orig)
      ensures failed == {} ==> Valid() && InSync(services)
    {
      hide AllSafe, Safe, Baseline, Union, NoRepeats;
      Unset(holder, prev, order0, entries0);
      failed := ReleaseOrReapply(services);
    }

    /** Applies the union, and checks that its first server shows somewhere. */
    method ApplyAndVerify(services: seq<Service>, first: set<Service>, second: set<Service>) returns (ok: bool, failed: set<Setting>)
      requires HoldersOk() && BaselineOk() && order != []
      modifies this`settings, this`saved, this`journal, this`trace
      ensures Valid() && old(trace) <= trace && AllSafe(trace, |old(trace)|, |trace|, orig)
      ensures failed == {} ==>
        && InSync(services)
        && (ok <==> Union(text, order, entries, Servers) == [] || exists svc :: svc in services && svc in first + second)
    {
      hide AllSafe, Safe, Baseline, Union, NoRepeats, AsListed;
      failed := ApplyUnion(services);
      var servers, _ := UnionOf(text, order, entries);
      ok := true;
      if |servers| > 0 {
        ok := VerifyDNS(services, servers[0], first, second);
        if failed == {} {
          assert forall svc | svc in services :: Setting(svc, Servers).svc in services && At(settings, Setting(svc, Servers)) == servers;
        }
      }
    }

    /** The servers of the union once a holder has these entries. */
    function ServersWith(holder: Holder, es: seq<string>): seq<string>
      requires forall h | h in order :: h in entries
      reads this
    {
      Union(text, if holder in entries then order else [holder] + order, entries[holder := es], Servers)
    }

    /**
     * Registers a holder's entries and applies the union. A verification that
     * fails leaves the holders and their order as they were; if no write fails, it
     * fails exactly when there are servers to show and no service that can be read.
     */
    method SetDNS(holder: Holder, es: seq<string>, services: seq<Service>, first: set<Service>, second: set<Service>)
      returns (ok: bool, failed: set<Setting>)
      requires Valid()
      modifies this`settings, this`saved, this`journal, this`trace, this`order, this`entries
      ensures ok && es != [] ==>
        && entries == old(entries)[holder := es]
        && order == (if holder in old(entries) then old(order) else [holder] + old(order))
      ensures !ok || es == [] ==> order == old(order) && entries == old(entries)
      ensures HoldersOk() && old(trace) <= trace
      ensures order != [] ==> Valid() && AllSafe(trace, |old(trace)|, |trace|, orig)
      ensures |trace| > |old(trace)| ==> AllSafe(trace, |old(trace)|, |trace| - 1, orig)
      ensures failed == {} ==> Valid() && (es != [] && services != [] ==> InSync(services))
      ensures failed == {} && es != [] && services != [] && order != [] ==> AsListed(services)
      ensures (es == [] ==> ok) && (es != [] && services == [] ==> !ok)
      ensures failed == {} && es != [] && services != [] ==>
        (ok <==> old(ServersWith(holder, es)) == [] || exists svc :: svc in services && svc in first + second)
    {
      hide AllSafe, Safe, Baseline, Union, NoRepeats, Drop;
      NothingYet(trace, orig);
      if |es| == 0 {
        return true, {};
      }
      if |services| == 0 {
        return false, {};
      }
      hide InSync, HoldersOk, AsListed;
      ok, failed := Register(holder, es, services, first, second);
      if failed == {} && order != [] { InSyncAsListed(services); }
    }

    /** The holder's entries count from now on, unless the check fails. */
    method Register(holder: Holder, es: seq<string>, services: seq<Service>, first: set<Service>, second: set<Service>)
      returns (ok: bool, failed: set<Setting>)
      requires Valid() && es != [] && services != []
      modifies this`settings, this`saved, this`journal, this`trace, this`order, this`entries
      ensures ok ==> entries == old(entries)[holder := es] && order == (if holder in old(entries) then old(order) else [holder] + old(order))
      ensures !ok ==> order == old(order) && entries == old(entries)
      ensures HoldersOk() && old(trace) <= trace
      ensures order != [] ==> Valid() && AllSafe(trace, |old(trace)|, |trace|, orig)
      ensures |trace| > |old(trace)| ==> AllSafe(trace, |old(trace)|, |trace| - 1, orig)
      ensures failed == {} ==> Valid() && InSync(services)
      ensures failed == {} ==> (ok <==> old(ServersWith(holder, es)) == [] || exists svc :: svc in services && svc in first + second)
    {
      hide AllSafe, Safe, Baseline, Union, NoRepeats, Drop;
      var prev := if holder in entries then Some(entries[holder]) else None;
      SetHolder(holder, es);
      assert holder in order && entries - {holder} == old(entries) - {holder};
      assert Union(text, order, entries, Servers) == old(ServersWith(holder, es));
      ok, failed := ApplyAndVerify(services, first, second);
      if !ok {
        ghost var before := trace;
        var rolledBack := Rollback(holder, prev, services, old(order), old(entries));
        SafeKept(before, trace, |old(trace)|, orig);
        SafeSpans(trace, |old(trace)|, |before|, orig);
        failed := failed + rolledBack;
      } else {
        SafeButLast(trace, |old(trace)|, orig);
      }
    }

    /** Releases a holder. */
    method RestoreDNS(holder: Holder, services: seq<Service>) returns (failed: set<Setting>)
      requires Valid()
      modifies this`settings, this`saved, this`journal, this`trace, this`order, this`entries
      ensures order == Drop(old(order), holder) && entries == old(entries) - {holder}
      ensures HoldersOk() && old(trace) <= trace
      ensures order != [] ==> Valid() && AllSafe(trace, |old(trace)|, |trace|, orig)
      ensures |trace| > |old(trace)| ==> AllSafe(trace, |old(trace)|, |trace| - 1, orig)
      ensures order == [] && failed == {} ==> Original() && saved == map[] && journal == None
      ensures failed == {} ==> Valid() && (holder in old(entries) ==> InSync(services))
      ensures failed == {} && order != [] && holder in old(entries) ==> AsListed(services)
    {
      hide AllSafe, Safe, Baseline, Union, NoRepeats, Drop, AsListed;
      NothingYet(trace, orig);
      var present := RemoveHolder(holder);
      if !present {
        if order == [] {
          UnsavedIsOriginal(settings, orig);
        }
        return {};
      }
      failed := ReleaseOrReapply(services);
      SafeButLast(trace, |old(trace)|, orig);
      if failed == {} && order != [] { InSyncAsListed(services); }
    }

    /** Looks at every service, unless it is new. */
    method DriftNoticed(services: seq<Service>, unreadable: set<Service>) returns (drifted: bool)
      requires HoldersOk()
      ensures drifted <==> Noticed(services, unreadable)
    {
      var want, _ := UnionOf(text, order, entries);
      drifted := false;
      for i := 0 to |services|
        invariant drifted <==> Noticed(services[..i], unreadable)
      {
        assert forall svc :: svc in services[..i+1] <==> svc in services[..i] || svc == services[i];
        NoticedMore(services[..i], services[i], services[..i+1], unreadable);
        if Setting(services[i], Servers) !in saved {
          drifted := true;
          continue;
        }
        if services[i] in unreadable || (|want| > 0 && At(settings, Setting(services[i], Servers)) != want) {
          drifted := true;
        }
      }
      assert services[..|services|] == services;
    }

    /**
     * Re-applies the union if a drift is noticed. So the services are in step
     * afterwards if and only if one was noticed or they were in step before.
     */
    method ReapplyIfDrifted(services: seq<Service>, unreadable: set<Service>) returns (failed: set<Setting>)
      requires Valid()
      modifies this`settings, this`saved, this`journal, this`trace
      ensures Valid() && old(trace) <= trace && AllSafe(trace, |old(trace)|, |trace|, orig)
      ensures order == [] || !old(Noticed(services, unreadable)) ==> settings == old(settings) && saved == old(saved) && trace == old(trace) && failed == {}
      ensures failed == {} ==> (InSync(services) <==> (order != [] && old(Noticed(services, unreadable))) || old(InSync(services)))
      ensures order != [] && failed == {} ==> forall svc | svc in services :: ServersKept(svc)
    {
      hide AllSafe, Safe, Baseline, Union, NoRepeats;
      NothingYet(trace, orig);
      if |order| == 0 {
        return {};
      }
      var drifted := DriftNoticed(services, unreadable);
      failed := {};
      if drifted {
        failed := ApplyUnion(services);
        forall svc | svc in services && failed == {} ensures ServersKept(svc) {
          assert Setting(svc, Servers) in saved;
        }
      }
    }

    /** The service is captured and has the union's servers, if there are any. */
    ghost predicate ServersKept(svc: Service)
      requires HoldersOk()
      reads this
    {
      && Setting(svc, Servers) in saved
      && var want := Union(text, order, entries, Servers);
         want == [] || At(settings, Setting(svc, Servers)) == want
    }

    lemma NoticedMore(services: seq<Service>, svc: Service, more: seq<Service>, unreadable: set<Service>)
      requires HoldersOk() && forall x :: x in more <==> x in services || x == svc
      ensures Noticed(more, unreadable) <==> Noticed(services, unreadable) || svc in unreadable || !ServersKept(svc)
    {}

    /** Some service is new, cannot be read, or no longer has the union's servers. */
    ghost predicate Noticed(services: seq<Service>, unreadable: set<Service>)
      requires HoldersOk()
      reads this
    {
      exists svc :: svc in services && (svc in unreadable || !ServersKept(svc))
    }

    /**
     * Replays the journal that a crash left, if there is one. From any safe state
     * everything is the user's again unless a needed write is lost, and a crash
     * before the journal is removed leaves a safe state once more.
     */
    method RestoreDNSFromJournal() returns (found: bool, failed: set<Setting>)
      requires Safe(Disk(settings, journal), orig) && saved == map[] && order == [] && entries == map[]
      modifies this`settings, this`journal, this`trace
      ensures found == old(journal).Some? && journal == None && old(trace) <= trace
      ensures found ==> |trace| > |old(trace)| && AllSafe(trace, |old(trace)|, |trace| - 1, orig)
      ensures Original() <==> !Lost(old(settings), failed)
      ensures failed == {} ==> Valid() && Original()
    {
      hide AllSafe;
      failed := {};
      if journal.None? {
        return false, {};
      }
      NothingYet(trace, orig);
      failed := WriteAll(journal.value);
      ghost var before := trace;
      RestoredFrom(old(settings), settings, journal.value, failed, orig);
      RemoveJournal();
      SafeKept(before, trace, |old(trace)|, orig);
      return true, failed;
    }
  }

  /**
   * A rewrite of the search list alone is a drift that nobody notices, and so is
   * one of the servers while the holders list none.
   */
  lemma DriftUnnoticed(d: SystemDNS, svc: Service, field: Field)
    requires d.Valid() && d.order != [] && (forall f :: Setting(svc, f) in d.saved)
    requires At(d.settings, Setting(svc, field)) != d.Wanted(Setting(svc, field))
    requires (field == Search && d.ServersKept(svc)) || Union(d.text, d.order, d.entries, Servers) == []
    ensures !d.Noticed([svc], {}) && !d.InSync([svc])
  {
    assert Setting(svc, field).svc in [svc];
  }

  /**
   * A restore that loses one write and drops the journal all the same: before, a
   * crash could be recovered from; now the user's setting is nowhere.
   */
  lemma LostWrite(s: Setting, user: seq<string>, ours: seq<string>)
    requires user != ours && user != []
    ensures var orig := map[s := user];
      && Safe(Disk(map[s := ours], Some(orig)), orig)
      && !Safe(Disk(map[s := ours], None), orig)
      && At(Recovered(Disk(map[s := ours], None)).settings, s) != At(orig, s)
  {
    var orig, lost := map[s := user], Disk(map[s := ours], None);
    SafeIffRecoverable(lost, orig);
    assert At(Recovered(lost).settings, s) == ours;
  }

  lemma UnsavedIsOriginal(settings: Values, orig: Values)
    requires Baseline(map[], settings, orig)
    ensures forall s :: At(settings, s) == At(orig, s)
  {}

  lemma SafeButLast(trace: seq<Disk>, from: nat, orig: Values)
    requires from <= |trace|
    ensures AllSafe(trace, from, |trace|, orig) && |trace| > from ==> AllSafe(trace, from, |trace| - 1, orig)
  {}

  lemma SafeSpans(trace: seq<Disk>, from: nat, mid: nat, orig: Values)
    requires from <= mid <= |trace| && AllSafe(trace, from, mid, orig)
    ensures AllSafe(trace, mid, |trace|, orig) ==> AllSafe(trace, from, |trace|, orig)
    ensures |trace| > mid && AllSafe(trace, mid, |trace| - 1, orig) ==> AllSafe(trace, from, |trace| - 1, orig)
    ensures |trace| == mid && |trace| > from ==> AllSafe(trace, from, |trace| - 1, orig)
    ensures |trace| > mid && AllSafe(trace, mid, |trace|, orig) ==> AllSafe(trace, from, |trace| - 1, orig)
  {}

  lemma RestoredFrom(before: Values, after: Values, journal: Values, failed: set<Setting>, orig: Values)
    requires Safe(Disk(before, Some(journal)), orig) && failed <= journal.Keys
    requires forall s :: At(after, s) == if s in journal && s !in failed then journal[s] else At(before, s)
    ensures (forall s :: At(after, s) == At(orig, s)) <==> !(exists s | s in failed :: At(before, s) != At(orig, s))
  {
    if s :| s in failed && At(before, s) != At(orig, s) {
      assert At(after, s) != At(orig, s);
    }
  }

  lemma SafeJoins(trace: seq<Disk>, from: nat, mid: nat, orig: Values)
    requires from <= mid <= |trace| && AllSafe(trace, from, mid, orig) && AllSafe(trace, mid, |trace|, orig)
    ensures AllSafe(trace, from, |trace|, orig)
  {}

  lemma SafeKept(before: seq<Disk>, after: seq<Disk>, from: nat, orig: Values)
    requires from <= |before| && AllSafe(before, from, |before|, orig) && before <= after
    ensures AllSafe(after, from, |before|, orig)
  {}
}
