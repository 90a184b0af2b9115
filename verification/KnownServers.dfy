/** The server list of `ios/Sidey/DiscoveryService.swift`: per server, the hosts
    it was last seen at, most recent first, at most eight. */
module KnownServers {
  import opened Prelude

  type Date = int

  const MAX_HOSTS := 8

  datatype Entry = Entry(name: string, hosts: seq<string>, lastSeen: Date)

  /** Hosts not spelling the same address as h: `fold` is the case folding that
      caseInsensitiveCompare compares by. */
  function Without(hosts: seq<string>, h: string, fold: string -> string): seq<string> {
    if hosts == [] then []
    else if fold(hosts[0]) == fold(h) then Without(hosts[1..], h, fold)
    else [hosts[0]] + Without(hosts[1..], h, fold)
  }

  function Prefix(s: seq<string>, n: nat): seq<string> { if |s| <= n then s else s[..n] }

  /** KnownServers.key; `lower` is lowercased(). */
  function Key(id: Option<string>, host: string, lower: string -> string): string {
    if id.None? || id.value == "" then "legacy:" + lower(host) else id.value
  }

  /** `decimal` writes a port number. */
  function HostPort(host: string, port: int, decimal: int -> string): string {
    if port == 80 then host else host + ":" + decimal(port)
  }

  class KnownServers {
    const fold: string -> string
    const lower: string -> string
    const decimal: int -> string
    var servers: map<string, Entry>

    constructor (fold: string -> string, lower: string -> string, decimal: int -> string)
      ensures servers == map[] && this.fold == fold && this.lower == lower && this.decimal == decimal
    {
      this.fold, this.lower, this.decimal, servers := fold, lower, decimal, map[];
    }

    method Note(id: Option<string>, name: string, host: string, port: int, date: Date)
      modifies this
      ensures var hostPort := if port == 80 then host else host + ":" + decimal(port);
              var k := if id.Some? && id.value != "" then id.value else "legacy:" + lower(hostPort);
              servers == old(servers)[k := Entry(name, Moved(old(Hosts(k)), hostPort, fold), date)]
    {
      var hostPort := HostPort(host, port, decimal);
      var k := Key(id, hostPort, lower);
      var entry := if k in servers then servers[k] else Entry(name, [], date);
      entry := entry.(name := name);
      entry := entry.(hosts := Without(entry.hosts, hostPort, fold));
      entry := entry.(hosts := [hostPort] + entry.hosts);
      entry := entry.(hosts := Prefix(entry.hosts, MAX_HOSTS));
      entry := entry.(lastSeen := date);
      servers := servers[k := entry];
    }

    function Hosts(key: string): seq<string>
      reads this
    {
      if key in servers then servers[key].hosts else []
    }
  }

  /** One server's list after one more contact. */
  function Moved(hosts: seq<string>, h: string, fold: string -> string): seq<string> {
    Prefix([h] + Without(hosts, h, fold), MAX_HOSTS)
  }

  datatype Contact = Contact(key: string, host: string)

  /** What the class keeps for a server after these contacts, oldest first. */
  function Kept(contacts: seq<Contact>, key: string, fold: string -> string): seq<string> {
    if contacts == [] then []
    else
      var front, c := Kept(contacts[..|contacts| - 1], key, fold), contacts[|contacts| - 1];
      if c.key == key then Moved(front, c.host, fold) else front
  }

  /** A server answering: what note is called with. */
  datatype Sighting = Sighting(id: Option<string>, name: string, host: string, port: int, date: Date)

  function Contacts(seen: seq<Sighting>, lower: string -> string, decimal: int -> string): (contacts: seq<Contact>)
    ensures |contacts| == |seen|
  {
    seq(|seen|, i requires 0 <= i < |seen| =>
      var h := HostPort(seen[i].host, seen[i].port, decimal); Contact(Key(seen[i].id, h, lower), h))
  }

  /** The class noting a whole run of sightings, from an empty list on: every
      server's hosts are what Kept says. */
  method NoteAll(seen: seq<Sighting>, fold: string -> string, lower: string -> string, decimal: int -> string)
    returns (known: KnownServers)
    ensures fresh(known)
    ensures forall key :: known.Hosts(key) == Kept(Contacts(seen, lower, decimal), key, fold)
  {
    known := new KnownServers(fold, lower, decimal);
    ghost var contacts := Contacts(seen, lower, decimal);
    for i := 0 to |seen|
      invariant fresh(known) && known.fold == fold && known.lower == lower && known.decimal == decimal
      invariant forall key :: known.Hosts(key) == Kept(contacts[..i], key, fold)
    {
      var s := seen[i];
      assert contacts[..i + 1][..i] == contacts[..i];
      known.Note(s.id, s.name, s.host, s.port, s.date);
    }
    assert contacts[..|seen|] == contacts;
  }

  // ------------------------------------------------------------ the full record

  /** Every host the server was contacted at, most recent first. */
  function Reversed(contacts: seq<Contact>, key: string): seq<string> {
    if contacts == [] then []
    else
      var front, c := Reversed(contacts[..|contacts| - 1], key), contacts[|contacts| - 1];
      if c.key == key then [c.host] + front else front
  }

  /** The first spelling of each address. */
  function Distinct(hosts: seq<string>, fold: string -> string): seq<string>
    decreases |hosts|
  {
    if hosts == [] then []
    else
      WithoutShortens(hosts[1..], hosts[0], fold);
      [hosts[0]] + Distinct(Without(hosts[1..], hosts[0], fold), fold)
  }

  lemma {:induction false} WithoutShortens(hosts: seq<string>, h: string, fold: string -> string)
    ensures |Without(hosts, h, fold)| <= |hosts|
  {
    if hosts != [] { WithoutShortens(hosts[1..], h, fold); }
  }

  lemma {:induction false} WithoutSwaps(hosts: seq<string>, a: string, b: string, fold: string -> string)
    ensures Without(Without(hosts, a, fold), b, fold) == Without(Without(hosts, b, fold), a, fold)
  {
    if hosts != [] { WithoutSwaps(hosts[1..], a, b, fold); }
  }

  lemma {:induction false} WithoutTwice(hosts: seq<string>, a: string, b: string, fold: string -> string)
    requires fold(a) == fold(b)
    ensures Without(Without(hosts, a, fold), b, fold) == Without(hosts, a, fold) == Without(hosts, b, fold)
  {
    if hosts != [] { WithoutTwice(hosts[1..], a, b, fold); }
  }

  /** Dropping an address before or after dropping repeats is the same. */
  lemma {:induction false} DistinctWithout(hosts: seq<string>, h: string, fold: string -> string)
    ensures Distinct(Without(hosts, h, fold), fold) == Without(Distinct(hosts, fold), h, fold)
    decreases |hosts|
  {
    if hosts != [] {
      var first, rest := hosts[0], hosts[1..];
      WithoutShortens(rest, first, fold);
      DistinctWithout(Without(rest, first, fold), h, fold);
      if fold(first) == fold(h) {
        DistinctWithout(rest, h, fold);
        WithoutTwice(rest, h, first, fold);
        WithoutTwice(Distinct(Without(rest, first, fold), fold), h, first, fold);
        WithoutTwice(rest, first, h, fold);
      } else {
        WithoutSwaps(rest, first, h, fold);
        assert (([first] + Without(rest, h, fold))[1..]) == Without(rest, h, fold);
        assert ([first] + Distinct(Without(rest, first, fold), fold))[1..]
            == Distinct(Without(rest, first, fold), fold);
      }
    }
  }

  predicate Unique(hosts: seq<string>, fold: string -> string) {
    forall i, j :: 0 <= i < j < |hosts| ==> fold(hosts[i]) != fold(hosts[j])
  }

  lemma {:induction false} WithoutMembers(hosts: seq<string>, h: string, fold: string -> string)
    ensures forall x :: x in Without(hosts, h, fold) <==> x in hosts && fold(x) != fold(h)
  {
    if hosts != [] { WithoutMembers(hosts[1..], h, fold); }
  }

  lemma {:induction false} DistinctMembers(hosts: seq<string>, fold: string -> string)
    ensures forall x :: x in Distinct(hosts, fold) ==> x in hosts
    ensures Unique(Distinct(hosts, fold), fold)
    decreases |hosts|
  {
    if hosts != [] {
      var rest := Without(hosts[1..], hosts[0], fold);
      WithoutShortens(hosts[1..], hosts[0], fold);
      WithoutMembers(hosts[1..], hosts[0], fold);
      DistinctMembers(rest, fold);
      forall j | 0 <= j < |Distinct(rest, fold)| ensures fold(Distinct(rest, fold)[j]) != fold(hosts[0]) {
        assert Distinct(rest, fold)[j] in rest;
      }
    }
  }

  /** Nothing to drop. */
  lemma {:induction false} WithoutNone(hosts: seq<string>, h: string, fold: string -> string)
    requires forall i :: 0 <= i < |hosts| ==> fold(hosts[i]) != fold(h)
    ensures Without(hosts, h, fold) == hosts
  {
    if hosts != [] { WithoutNone(hosts[1..], h, fold); }
  }

  /** Cutting a list without repeats to n before dropping one address leaves the
      same first n - 1. */
  lemma {:induction false} CutThenDrop(hosts: seq<string>, h: string, n: nat, fold: string -> string)
    requires Unique(hosts, fold) && n > 0
    ensures Prefix(Without(Prefix(hosts, n), h, fold), n - 1) == Prefix(Without(hosts, h, fold), n - 1)
  {
    if |hosts| > n {
      var rest := hosts[1..];
      if fold(hosts[0]) == fold(h) {
        WithoutNone(rest, h, fold);
        WithoutNone(rest[..n - 1], h, fold);
        assert Prefix(hosts, n)[1..] == rest[..n - 1];
      } else if n > 1 {
        CutThenDrop(rest, h, n - 1, fold);
        assert Prefix(hosts, n)[1..] == Prefix(rest, n - 1);
        PrefixCons(hosts[0], Without(Prefix(rest, n - 1), h, fold), Without(rest, h, fold), n - 1);
      }
    }
  }

  lemma PrefixCons(x: string, a: seq<string>, b: seq<string>, n: nat)
    requires n > 0 && Prefix(a, n - 1) == Prefix(b, n - 1)
    ensures Prefix([x] + a, n) == Prefix([x] + b, n)
  {
    assert Prefix([x] + a, n) == [x] + Prefix(a, n - 1) && Prefix([x] + b, n) == [x] + Prefix(b, n - 1);
  }

  /** Truncating at every contact loses nothing against truncating once: a server's
      list is the first eight addresses of its full contact history, latest first
      and each in its latest spelling. */
  lemma {:induction false} KeptIsHistory(contacts: seq<Contact>, key: string, fold: string -> string)
    ensures Kept(contacts, key, fold) == Prefix(Distinct(Reversed(contacts, key), fold), MAX_HOSTS)
  {
    if contacts != [] {
      var front, c := contacts[..|contacts| - 1], contacts[|contacts| - 1];
      KeptIsHistory(front, key, fold);
      if c.key == key {
        var full := Distinct(Reversed(front, key), fold);
        DistinctMembers(Reversed(front, key), fold);
        CutThenDrop(full, c.host, MAX_HOSTS, fold);
        PrefixCons(c.host, Without(Prefix(full, MAX_HOSTS), c.host, fold), Without(full, c.host, fold), MAX_HOSTS);
        DistinctWithout(Reversed(front, key), c.host, fold);
        assert Reversed(contacts, key)[1..] == Reversed(front, key);
      }
    }
  }

  // -------------------------------------------------- without the bookkeeping

  /** The server was not contacted again at the n-th contact's address. */
  predicate LastAt(contacts: seq<Contact>, key: string, fold: string -> string, n: nat) {
    && n < |contacts| && contacts[n].key == key
    && forall m :: n < m < |contacts| && contacts[m].key == key ==> fold(contacts[m].host) != fold(contacts[n].host)
  }

  /** The hosts of such contacts among the first n, latest first. */
  function LastHosts(contacts: seq<Contact>, key: string, fold: string -> string, n: nat): seq<string>
    requires n <= |contacts|
  {
    if n == 0 then []
    else
      var earlier := LastHosts(contacts, key, fold, n - 1);
      if LastAt(contacts, key, fold, n - 1) then [contacts[n - 1].host] + earlier else earlier
  }

  lemma {:induction false} LastHostsStep(contacts: seq<Contact>, key: string, fold: string -> string, c: Contact,
                                         n: nat)
    requires n <= |contacts|
    ensures var earlier := LastHosts(contacts, key, fold, n);
            LastHosts(contacts + [c], key, fold, n) == if c.key == key then Without(earlier, c.host, fold) else earlier
  {
    if n > 0 {
      LastHostsStep(contacts, key, fold, c, n - 1);
      var more := contacts + [c];
      assert more[n - 1] == contacts[n - 1] && more[|contacts|] == c;
      assert LastAt(more, key, fold, n - 1) <==>
             LastAt(contacts, key, fold, n - 1) && (c.key == key ==> fold(c.host) != fold(contacts[n - 1].host))
      by {
        if LastAt(more, key, fold, n - 1) {
          forall m | n - 1 < m < |contacts| && contacts[m].key == key
            ensures fold(contacts[m].host) != fold(contacts[n - 1].host)
          {
            assert more[m] == contacts[m];
          }
        }
      }
    }
  }

  lemma {:induction false} DistinctIsLast(contacts: seq<Contact>, key: string, fold: string -> string)
    ensures Distinct(Reversed(contacts, key), fold) == LastHosts(contacts, key, fold, |contacts|)
  {
    if contacts != [] {
      var front, c := contacts[..|contacts| - 1], contacts[|contacts| - 1];
      assert contacts == front + [c];
      DistinctIsLast(front, key, fold);
      LastHostsStep(front, key, fold, c, |front|);
      assert LastAt(contacts, key, fold, |front|) <==> c.key == key;
      if c.key == key {
        DistinctWithout(Reversed(front, key), c.host, fold);
        assert Reversed(contacts, key)[1..] == Reversed(front, key);
      }
    }
  }

  /** A server's list is its hosts in the order of the last contact at each address,
      latest first and spelled as then, cut to eight; no address is in it twice. */
  lemma KeptIsLast(contacts: seq<Contact>, key: string, fold: string -> string)
    ensures var all, kept := LastHosts(contacts, key, fold, |contacts|), Kept(contacts, key, fold);
            && kept == (if |all| <= 8 then all else all[..8])
            && forall i, j :: 0 <= i < j < |kept| ==> fold(kept[i]) != fold(kept[j])
  {
    KeptIsHistory(contacts, key, fold);
    DistinctIsLast(contacts, key, fold);
    DistinctMembers(Reversed(contacts, key), fold);
  }
}
