/** How an AltStore feed becomes store apps (`internal/api/store.go`): entries
    grouped by base key, each group sorted. */
module AltStore {
  import opened Prelude
  import opened Versions

  /** Library functions on text that stay abstract. */
  datatype Text = Text(lower: string -> string, trimSpace: string -> string)

  datatype RawVersion = RawVersion(version: string, date: string, desc: string, url: string, size: int)

  datatype FeedApp = FeedApp(
    name: string, bundle: string, developer: string, desc: string, icon: string,
    legacy: RawVersion, // the top-level version fields
    versions: seq<RawVersion>)

  datatype AppVersion = AppVersion(
    version: string, channel: string, bundle: string, url: string, size: int, date: string)

  datatype StoreApp = StoreApp(
    id: string, name: string, developer: string, desc: string, icon: string,
    versions: seq<AppVersion>,
    top: Option<AppVersion>) // the app's own bundle, version, channel, url, size and date

  predicate Suffix(s: string, end: string) { |end| <= |s| && s[|s| - |end|..] == end }

  function TrimSuffix(s: string, end: string): string { if Suffix(s, end) then s[..|s| - |end|] else s }

  function BaseKey(bundle: string, name: string, t: Text): string {
    var id := TrimSuffix(TrimSuffix(TrimSuffix(TrimSuffix(t.lower(bundle), ".beta"), ".preview"), ".nightly"), "-beta");
    if id != "" then id else t.lower(t.trimSpace(name))
  }

  function DetectChannel(bundle: string, version: string, name: string, desc: string, t: Text): string {
    var combined := t.lower(bundle + " " + version + " " + name + " " + desc);
    if Contains(combined, "nightly") then "nightly"
    else if Contains(combined, "alpha") then "alpha"
    else if Contains(combined, "beta") || Contains(combined, " rc") || Contains(combined, "-rc")
        || Contains(version, "b") then "beta"
    else "stable"
  }

  // ---------------------------------------------------------- accepted entries

  /** One accepted entry, with the app it came from. */
  datatype Item = Item(key: string, version: AppVersion, app: FeedApp)

  /** The versions an app contributes: those with a URL, else its legacy one. */
  function WithUrl(versions: seq<RawVersion>): seq<RawVersion> {
    if versions == [] then []
    else
      var front, v := WithUrl(versions[..|versions| - 1]), versions[|versions| - 1];
      if v.url == "" then front else front + [v]
  }

  function RawEntries(a: FeedApp): seq<RawVersion> {
    var entries := WithUrl(a.versions);
    if entries == [] && a.legacy.url != "" then [a.legacy] else entries
  }

  predicate Https(url: string, t: Text) { "https://" <= t.lower(url) }

  function ItemOf(a: FeedApp, e: RawVersion, t: Text): Item {
    Item(BaseKey(a.bundle, a.name, t),
         AppVersion(e.version, DetectChannel(a.bundle, e.version, a.name, e.desc, t), a.bundle, e.url, e.size,
             e.date), a)
  }

  function ItemsOf(a: FeedApp, entries: seq<RawVersion>, t: Text): seq<Item> {
    if entries == [] then []
    else
      var front, e := ItemsOf(a, entries[..|entries| - 1], t), entries[|entries| - 1];
      if Https(e.url, t) then front + [ItemOf(a, e, t)] else front
  }

  /** All accepted entries of the feed, in order. */
  function Items(apps: seq<FeedApp>, t: Text): seq<Item> {
    if apps == [] then []
    else
      var a := apps[|apps| - 1];
      Items(apps[..|apps| - 1], t) + ItemsOf(a, RawEntries(a), t)
  }

  // ------------------------------------------------------------------ grouping

  datatype Groups = Groups(apps: map<string, StoreApp>, order: seq<string>)

  function Founded(i: Item): StoreApp {
    StoreApp("alt-" + i.key, TrimSuffix(TrimSuffix(i.app.name, " (Beta)"), " Beta"),
             i.app.developer, i.app.desc, i.app.icon, [i.version], None)
  }

  function Joined(g: StoreApp, i: Item): StoreApp {
    var more := g.(versions := g.versions + [i.version]);
    if i.version.channel != "stable" then more
    else more.(name := i.app.name,
               icon := if i.app.icon != "" then i.app.icon else g.icon,
               desc := if i.app.desc != "" then i.app.desc else g.desc)
  }

  function Grouped(g: Groups, i: Item): Groups {
    if i.key in g.apps then g.(apps := g.apps[i.key := Joined(g.apps[i.key], i)])
    else Groups(g.apps[i.key := Founded(i)], g.order + [i.key])
  }

  function GroupAll(items: seq<Item>): Groups {
    if items == [] then Groups(map[], []) else Grouped(GroupAll(items[..|items| - 1]), items[|items| - 1])
  }

  // ------------------------------------------------------------------- sorting

  /** The less function given to sort.Slice. */
  predicate Before(x: AppVersion, y: AppVersion) {
    if x.channel == "stable" && y.channel != "stable" then true
    else if y.channel == "stable" && x.channel != "stable" then false
    else LexCompare(x.date, y.date) > 0
  }

  predicate Sorted(s: seq<AppVersion>) { forall i, j :: 0 <= i < j < |s| ==> !Before(s[j], s[i]) }

  function Finished(g: StoreApp, sorted: seq<AppVersion>): StoreApp {
    g.(versions := sorted, top := if sorted != [] then Some(sorted[0]) else None)
  }

  /** "Not after" is transitive and total, so any sort by it means one thing. */
  lemma NotBeforeChain(x: AppVersion, y: AppVersion, z: AppVersion)
    requires !Before(y, x) && !Before(z, y)
    ensures !Before(z, x)
  {
    LexAntisymmetric(x.date, y.date);
    LexAntisymmetric(y.date, z.date);
    LexAntisymmetric(x.date, z.date);
    if LexCompare(z.date, y.date) <= 0 && LexCompare(y.date, x.date) <= 0 { LexTransitive(z.date, y.date, x.date); }
  }

  /** sort.Slice: some permutation in order. */
  method SortVersions(versions: seq<AppVersion>) returns (sorted: seq<AppVersion>)
    ensures multiset(sorted) == multiset(versions) && Sorted(sorted)
  {
    sorted := [];
    var i := 0;
    while i < |versions|
      invariant 0 <= i <= |versions| && multiset(sorted) == multiset(versions[..i]) && Sorted(sorted)
    {
      assert versions[..i + 1] == versions[..i] + [versions[i]];
      sorted := InsertSorted(sorted, versions[i]);
      i := i + 1;
    }
    assert versions[..i] == versions;
  }

  function InsertSorted(s: seq<AppVersion>, v: AppVersion): (r: seq<AppVersion>)
    requires Sorted(s)
    ensures Sorted(r) && multiset(r) == multiset(s) + multiset{v}
  {
    if s == [] then [v]
    else if Before(v, s[0]) then
      BeforeAll(s, v);
      assert [v] + s == [v] + s;
      [v] + s
    else
      var rest := InsertSorted(s[1..], v);
      InsertKeepsFirst(s, v, rest);
      assert s == [s[0]] + s[1..];
      [s[0]] + rest
  }

  lemma BeforeAll(s: seq<AppVersion>, v: AppVersion)
    requires Sorted(s) && s != [] && Before(v, s[0])
    ensures Sorted([v] + s)
  {
    forall j | 0 <= j < |s| ensures !Before(s[j], v) {
      LexAntisymmetric(v.date, s[0].date);
      if j > 0 { NotBeforeChain(v, s[0], s[j]); }
    }
  }

  lemma InsertKeepsFirst(s: seq<AppVersion>, v: AppVersion, rest: seq<AppVersion>)
    requires s != [] && Sorted(s) && !Before(v, s[0]) && Sorted(rest)
        && multiset(rest) == multiset(s[1..]) + multiset{v}
    ensures Sorted([s[0]] + rest)
  {
    forall j | 0 <= j < |rest| ensures !Before(rest[j], s[0]) {
      assert rest[j] in multiset(rest);
      if rest[j] != v {
        assert rest[j] in s[1..];
        var k :| 0 <= k < |s[1..]| && s[1..][k] == rest[j];
        assert s[k + 1] == rest[j];
      }
    }
  }

  // ------------------------------------------------------------------ the code

  /** The app as listed: its group, sorted. */
  ghost predicate Lists(app: StoreApp, g: StoreApp) {
    app == Finished(g, app.versions) && multiset(app.versions) == multiset(g.versions) && Sorted(app.versions)
  }

  method FetchApps(apps: seq<FeedApp>, t: Text) returns (results: seq<StoreApp>)
    ensures var g := GroupAll(Items(apps, t));
            && |results| == |g.order|
            && forall i :: 0 <= i < |results| ==> g.order[i] in g.apps && Lists(results[i], g.apps[g.order[i]])
  {
    hide GroupAll, ItemsOf;
    var g := Groups(map[], []);
    assert g == GroupAll([]) by { NoItems(); }
    var i := 0;
    while i < |apps|
      invariant 0 <= i <= |apps| && g == GroupAll(Items(apps[..i], t))
    {
      g := AddApp(g, apps[i], t, Items(apps[..i], t));
      assert apps[..i + 1][..i] == apps[..i];
      i := i + 1;
    }
    assert apps[..i] == apps;
    OrderIsKnown(Items(apps, t));
    results := FinishAll(g);
  }

  lemma NoItems()
    ensures GroupAll([]) == Groups(map[], [])
  {
  }

  /** The last loop: sort each group and fill in the app's own fields. */
  method FinishAll(g: Groups) returns (results: seq<StoreApp>)
    requires forall k :: k in g.order ==> k in g.apps
    ensures |results| == |g.order|
    ensures forall i :: 0 <= i < |results| ==> Lists(results[i], g.apps[g.order[i]])
  {
    results := [];
    var i := 0;
    while i < |g.order|
      invariant 0 <= i <= |g.order| && |results| == i
      invariant forall k :: 0 <= k < i ==> Lists(results[k], g.apps[g.order[k]])
    {
      var sorted := SortVersions(g.apps[g.order[i]].versions);
      results := results + [Finished(g.apps[g.order[i]], sorted)];
      i := i + 1;
    }
  }

  method CollectEntries(a: FeedApp) returns (entries: seq<RawVersion>)
    ensures entries == RawEntries(a)
  {
    entries := [];
    var i := 0;
    while i < |a.versions|
      invariant 0 <= i <= |a.versions| && entries == WithUrl(a.versions[..i])
    {
      assert a.versions[..i + 1][..i] == a.versions[..i];
      if a.versions[i].url != "" { entries := entries + [a.versions[i]]; }
      i := i + 1;
    }
    assert a.versions[..i] == a.versions;
    if |entries| == 0 && a.legacy.url != "" { entries := [a.legacy]; }
  }

  /** The inner loops: one app's entries. */
  method AddApp(before: Groups, a: FeedApp, t: Text, ghost items: seq<Item>) returns (g: Groups)
    requires before == GroupAll(items)
    ensures g == GroupAll(items + ItemsOf(a, RawEntries(a), t))
  {
    hide Grouped, GroupAll, ItemOf, RawEntries, Https;
    var entries := CollectEntries(a);
    g := before;
    var i := 0;
    assert items + ItemsOf(a, entries[..0], t) == items;
    while i < |entries|
      invariant 0 <= i <= |entries| && g == GroupAll(items + ItemsOf(a, entries[..i], t))
    {
      ghost var done := items + ItemsOf(a, entries[..i], t);
      assert entries[..i + 1][..i] == entries[..i];
      if Https(entries[i].url, t) {
        var item := ItemOf(a, entries[i], t);
        assert items + ItemsOf(a, entries[..i + 1], t) == done + [item];
        OneMoreItem(done, item);
        g := Grouped(g, item);
      }
      i := i + 1;
    }
    assert entries[..i] == entries;
  }

  lemma OneMoreItem(items: seq<Item>, i: Item)
    ensures GroupAll(items + [i]) == Grouped(GroupAll(items), i)
  {
    assert (items + [i])[..|items|] == items;
  }

  // ---------------------------------------------------------------- what it means

  /** The keys in the order they first appear. */
  function FirstKeys(items: seq<Item>): seq<string> {
    if items == [] then []
    else
      var front, k := FirstKeys(items[..|items| - 1]), items[|items| - 1].key;
      if k in front then front else front + [k]
  }

  /** The entries under one key, in feed order. */
  function Under(items: seq<Item>, key: string): seq<AppVersion> {
    if items == [] then []
    else
      var front, i := Under(items[..|items| - 1], key), items[|items| - 1];
      if i.key == key then front + [i.version] else front
  }

  /** Grouping loses and invents nothing: the groups are the keys in order of first
      appearance, each once, and a group holds exactly the entries under its key. */
  lemma {:induction false} GroupsConserve(items: seq<Item>)
    ensures GroupAll(items).order == FirstKeys(items)
    ensures forall k :: k in GroupAll(items).apps <==> k in GroupAll(items).order
    ensures forall k :: k in GroupAll(items).apps ==> GroupAll(items).apps[k].versions == Under(items, k) != []
    ensures forall k :: k !in GroupAll(items).apps ==> Under(items, k) == []
    ensures forall i, j :: 0 <= i < j < |GroupAll(items).order| ==> GroupAll(items).order[i] != GroupAll(items).order[j]
  {
    if items != [] { GroupsConserve(items[..|items| - 1]); }
  }

  lemma OrderIsKnown(items: seq<Item>)
    ensures forall k :: k in GroupAll(items).order ==> k in GroupAll(items).apps
  {
    GroupsConserve(items);
  }

  /** The entries of all groups together. */
  function Everything(items: seq<Item>, keys: seq<string>): multiset<AppVersion> {
    if keys == [] then multiset{} else Everything(items, keys[..|keys| - 1]) + multiset(Under(items, keys[|keys| - 1]))
  }

  function All(items: seq<Item>): multiset<AppVersion> {
    if items == [] then multiset{} else All(items[..|items| - 1]) + multiset{items[|items| - 1].version}
  }

  lemma {:induction false} EverythingMore(items: seq<Item>, i: Item, keys: seq<string>)
    requires forall a, b :: 0 <= a < b < |keys| ==> keys[a] != keys[b]
    ensures Everything(items + [i], keys) == Everything(items, keys)
        + if i.key in keys then multiset{i.version} else multiset{}
  {
    hide Under;
    if keys != [] {
      var front, last := keys[..|keys| - 1], keys[|keys| - 1];
      EverythingMore(items, i, front);
      UnderMore(items, i, last);
      assert i.key in keys <==> i.key in front || i.key == last;
    }
  }

  lemma UnderMore(items: seq<Item>, i: Item, key: string)
    ensures multiset(Under(items + [i], key)) == multiset(Under(items, key))
        + if i.key == key then multiset{i.version} else multiset{}
  {
    assert (items + [i])[..|items|] == items;
  }

  lemma {:induction false} KeysAreFirst(items: seq<Item>)
    ensures forall i, j :: 0 <= i < j < |FirstKeys(items)| ==> FirstKeys(items)[i] != FirstKeys(items)[j]
    ensures forall k :: k !in FirstKeys(items) ==> Under(items, k) == []
  {
    if items != [] { KeysAreFirst(items[..|items| - 1]); }
  }

  lemma {:induction false} KeysConserve(items: seq<Item>)
    ensures Everything(items, FirstKeys(items)) == All(items)
  {
    hide Everything, Under;
    if items == [] {
      assert Everything(items, []) == multiset{} by { NoGroups(items); }
    } else {
      var front, i := items[..|items| - 1], items[|items| - 1];
      var keys := FirstKeys(front);
      KeysConserve(front);
      KeysAreFirst(front);
      assert items == front + [i];
      EverythingMore(front, i, keys);
      if i.key !in keys { NewGroup(front, i, keys); }
    }
  }

  lemma NoGroups(items: seq<Item>)
    ensures Everything(items, []) == multiset{}
  {
  }

  lemma NewGroup(items: seq<Item>, i: Item, keys: seq<string>)
    requires Under(items, i.key) == []
    ensures Everything(items + [i], keys + [i.key]) == Everything(items + [i], keys) + multiset{i.version}
  {
    assert (items + [i])[..|items|] == items && (keys + [i.key])[..|keys|] == keys;
    assert Under(items + [i], i.key) == [i.version];
  }

  /** Each accepted entry is in exactly one group, exactly as often as in the feed. */
  lemma Conservation(items: seq<Item>)
    ensures Everything(items, GroupAll(items).order) == All(items)
  {
    GroupsConserve(items);
    KeysConserve(items);
  }

  /** A sorted group puts its stable versions first, so the app's own fields are a
      stable version's whenever the group has one, and a latest one's among those. */
  lemma StableOnTop(g: StoreApp, sorted: seq<AppVersion>, v: AppVersion)
    requires multiset(sorted) == multiset(g.versions) && Sorted(sorted) && v in g.versions && v.channel == "stable"
    ensures var top := Finished(g, sorted).top;
            top.Some? && top.value in g.versions && top.value.channel == "stable"
                && LexCompare(v.date, top.value.date) <= 0
  {
    assert v in multiset(sorted);
    var k :| 0 <= k < |sorted| && sorted[k] == v;
    assert sorted[0] in multiset(g.versions);
    LexAntisymmetric(v.date, v.date);
  }

  /** Stable entries precede the others; within either kind dates never increase. */
  lemma SortedMeans(s: seq<AppVersion>, i: nat, j: nat)
    requires Sorted(s) && i < j < |s|
    ensures s[j].channel == "stable" ==> s[i].channel == "stable"
    ensures (s[i].channel == "stable" <==> s[j].channel == "stable") ==> LexCompare(s[j].date, s[i].date) <= 0
  {
  }

  // -------------------------------------------------- the texts, spelled out

  ghost predicate Ends(s: string, end: string) { exists a :: s == a + end }

  lemma TrimMeans(s: string, end: string)
    ensures TrimSuffix(s + end, end) == s
    ensures !Ends(s, end) ==> TrimSuffix(s, end) == s
  {
    if Suffix(s, end) { assert s == s[..|s| - |end|] + end; }
  }

  /** The key of a bundle is its identifier in lower case without an ending .beta,
      before that .preview, before that .nightly, and before that -beta, each dropped
      once if it is there. If nothing is left it is the app's name. */
  lemma KeyMeans(bundle: string, name: string, t: Text, base: string, dash: string, nightly: string, preview: string,
                 beta: string)
    requires t.lower(bundle) == base + dash + nightly + preview + beta
    requires dash == "-beta" || (dash == "" && !Ends(base, "-beta"))
    requires nightly == ".nightly" || (nightly == "" && !Ends(base + dash, ".nightly"))
    requires preview == ".preview" || (preview == "" && !Ends(base + dash + nightly, ".preview"))
    requires beta == ".beta" || (beta == "" && !Ends(base + dash + nightly + preview, ".beta"))
    ensures BaseKey(bundle, name, t) == if base == "" then t.lower(t.trimSpace(name)) else base
  {
    hide TrimSuffix, Suffix;
    TrimMeans(base + dash + nightly + preview, ".beta");
    TrimMeans(base + dash + nightly, ".preview");
    TrimMeans(base + dash, ".nightly");
    TrimMeans(base, "-beta");
    assert forall s: string :: s + "" == s;
  }

  /** Which words make a build nightly, alpha or beta; the search is in lower case,
      except for the b in a version. */
  lemma ChannelMeans(bundle: string, version: string, name: string, desc: string, t: Text)
    ensures var channel := DetectChannel(bundle, version, name, desc, t);
            var text := t.lower(bundle + " " + version + " " + name + " " + desc);
            var night, alpha := exists a, b :: text == a + "nightly" + b, exists a, b :: text == a + "alpha" + b;
            var beta := 'b' in version || exists a, m, b :: m in {"beta", " rc", "-rc"} && text == a + m + b;
            && channel in {"nightly", "alpha", "beta", "stable"}
            && (channel == "nightly" <==> night)
            && (channel == "alpha" <==> alpha && !night)
            && (channel == "beta" <==> beta && !night && !alpha)
  {
    hide Contains;
    var text := t.lower(bundle + " " + version + " " + name + " " + desc);
    ContainsMeans(text, "nightly");
    ContainsMeans(text, "alpha");
    ContainsMeans(text, "beta");
    ContainsMeans(text, " rc");
    ContainsMeans(text, "-rc");
    ContainsMeans(version, "b");
    if 'b' in version {
      var i :| 0 <= i < |version| && version[i] == 'b';
      assert version == version[..i] + "b" + version[i + 1..];
    }
  }

  // ------------------------------------------------- the entries, spelled out

  /** The app offers e: a version with a URL, or the top-level fields when no version
      has one; and the URL is https. */
  predicate Offers(a: FeedApp, e: RawVersion, t: Text) {
    && e.url != "" && "https://" <= t.lower(e.url)
    && (e in a.versions || (e == a.legacy && forall v :: v in a.versions ==> v.url == ""))
  }

  /** What is accepted of an offer. */
  predicate Accepted(i: Item, a: FeedApp, e: RawVersion, t: Text) {
    && i.app == a && i.key == BaseKey(a.bundle, a.name, t)
    && i.version.version == e.version && i.version.bundle == a.bundle && i.version.url == e.url
    && i.version.size == e.size && i.version.date == e.date
    && i.version.channel == DetectChannel(a.bundle, e.version, a.name, e.desc, t)
  }

  lemma {:induction false} WithUrlMembers(versions: seq<RawVersion>)
    ensures forall e :: e in WithUrl(versions) <==> e in versions && e.url != ""
  {
    if versions != [] {
      var front, v := versions[..|versions| - 1], versions[|versions| - 1];
      WithUrlMembers(front);
      assert versions == front + [v];
    }
  }

  lemma {:induction false} ItemsOfMembers(a: FeedApp, entries: seq<RawVersion>, t: Text, i: Item)
    ensures i in ItemsOf(a, entries, t) <==>
              exists e :: e in entries && "https://" <= t.lower(e.url) && Accepted(i, a, e, t)
  {
    hide BaseKey, DetectChannel;
    if entries != [] {
      var front, last := entries[..|entries| - 1], entries[|entries| - 1];
      ItemsOfMembers(a, front, t, i);
      assert entries == front + [last];
      assert i == ItemOf(a, last, t) <==> Accepted(i, a, last, t);
    }
  }

  lemma RawEntriesMembers(a: FeedApp, e: RawVersion)
    ensures e in RawEntries(a) <==>
              e.url != "" && (e in a.versions || (e == a.legacy && forall v :: v in a.versions ==> v.url == ""))
  {
    WithUrlMembers(a.versions);
    var entries := WithUrl(a.versions);
    if entries != [] { assert entries[0] in a.versions && entries[0].url != ""; }
  }

  /** Exactly the offers of the feed's apps are accepted. */
  lemma {:induction false} ItemsMean(apps: seq<FeedApp>, t: Text, i: Item)
    ensures i in Items(apps, t) <==> exists a, e :: a in apps && Offers(a, e, t) && Accepted(i, a, e, t)
  {
    hide Accepted, ItemsOf;
    if apps != [] {
      var front, last := apps[..|apps| - 1], apps[|apps| - 1];
      ItemsMean(front, t, i);
      assert apps == front + [last];
      ItemsOfMembers(last, RawEntries(last), t, i);
      forall e ensures e in RawEntries(last) && "https://" <= t.lower(e.url) <==> Offers(last, e, t) {
        RawEntriesMembers(last, e);
      }
    }
  }

  /** Feed order is kept, and nothing is accepted twice: two feeds one after the
      other give their entries one after the other. */
  lemma {:induction false} ItemsJoin(a: seq<FeedApp>, b: seq<FeedApp>, t: Text)
    ensures Items(a + b, t) == Items(a, t) + Items(b, t)
  {
    hide ItemsOf, RawEntries;
    if b == [] {
      assert a + b == a;
    } else {
      var front := b[..|b| - 1];
      ItemsJoin(a, front, t);
      assert (a + b)[..|a| + |front|] == a + front;
    }
  }

  // ---------------------------------------------------- the app a group becomes

  /** A stable entry that joined the group founded by entry f. */
  predicate Speaks(items: seq<Item>, f: nat, s: int) {
    f < s < |items| && items[s].key == items[f].key && items[s].version.channel == "stable"
  }

  /** The last of the speakers that meet a condition. */
  ghost predicate LastSpeaker(items: seq<Item>, f: nat, s: int, p: FeedApp -> bool) {
    && Speaks(items, f, s) && p(items[s].app)
    && forall r :: Speaks(items, f, r) && p(items[r].app) ==> r <= s
  }

  /** `text` is read from the last speaker that meets a condition, else it is `own`. */
  ghost predicate ReadFrom(text: string, items: seq<Item>, f: nat, p: FeedApp -> bool, read: FeedApp -> string,
                           own: string)
  {
    || (exists s :: LastSpeaker(items, f, s, p) && text == read(items[s].app))
    || (text == own && forall s :: Speaks(items, f, s) ==> !p(items[s].app))
  }

  lemma ReadFromStep(items: seq<Item>, i: Item, f: nat, p: FeedApp -> bool, read: FeedApp -> string, own: string,
                     text: string)
    requires f < |items| && ReadFrom(text, items, f, p, read, own)
    ensures ReadFrom(if i.key == items[f].key && i.version.channel == "stable" && p(i.app) then read(i.app) else text,
        items + [i], f, p, read, own)
  {
    var more := items + [i];
    assert forall s :: Speaks(items, f, s) ==> Speaks(more, f, s);
    assert forall s :: Speaks(more, f, s) && s < |items| ==> Speaks(items, f, s);
    if i.key == items[f].key && i.version.channel == "stable" && p(i.app) {
      assert LastSpeaker(more, f, |items|, p);
    } else if s :| LastSpeaker(items, f, s, p) && text == read(items[s].app) {
      assert LastSpeaker(more, f, s, p) && more[s] == items[s];
    }
  }

  /** A group's identity and developer come from its first entry. Its name, icon and
      description are those of the last stable entry that joined it and, for the
      latter two, has one; if there is none they are the first entry's, whose name
      loses " (Beta)" and " Beta". */
  lemma {:induction false} GroupMeans(items: seq<Item>, f: nat)
    requires f < |items| && forall k :: 0 <= k < f ==> items[k].key != items[f].key
    ensures items[f].key in GroupAll(items).apps
    ensures var g, app := GroupAll(items).apps[items[f].key], items[f].app;
            && g.id == "alt-" + items[f].key && g.developer == app.developer
            && ReadFrom(g.name, items, f, (a: FeedApp) => true, (a: FeedApp) => a.name,
                        TrimSuffix(TrimSuffix(app.name, " (Beta)"), " Beta"))
            && ReadFrom(g.icon, items, f, (a: FeedApp) => a.icon != "", (a: FeedApp) => a.icon, app.icon)
            && ReadFrom(g.desc, items, f, (a: FeedApp) => a.desc != "", (a: FeedApp) => a.desc, app.desc)
  {
    hide ReadFrom, TrimSuffix;
    var n := |items| - 1;
    var front, i := items[..n], items[n];
    assert items == front + [i];
    if f == n {
      GroupsConserve(front);
      FoundsGroup(front, i);
      assert forall s :: !Speaks(items, f, s);
      ReadsOwn(items, f);
    } else {
      GroupMeans(front, f);
      var g := GroupAll(front).apps[items[f].key];
      var own := TrimSuffix(TrimSuffix(items[f].app.name, " (Beta)"), " Beta");
      ReadFromStep(front, i, f, (a: FeedApp) => true, (a: FeedApp) => a.name, own, g.name);
      ReadFromStep(front, i, f, (a: FeedApp) => a.icon != "", (a: FeedApp) => a.icon, items[f].app.icon, g.icon);
      ReadFromStep(front, i, f, (a: FeedApp) => a.desc != "", (a: FeedApp) => a.desc, items[f].app.desc, g.desc);
    }
  }

  lemma FoundsGroup(items: seq<Item>, i: Item)
    requires forall k :: 0 <= k < |items| ==> items[k].key != i.key
    ensures i.key !in GroupAll(items).apps
  {
    GroupsConserve(items);
    if i.key in GroupAll(items).apps { NotUnder(items, i.key); }
  }

  lemma {:induction false} NotUnder(items: seq<Item>, key: string)
    requires forall k :: 0 <= k < |items| ==> items[k].key != key
    ensures Under(items, key) == []
  {
    if items != [] { NotUnder(items[..|items| - 1], key); }
  }

  lemma ReadsOwn(items: seq<Item>, f: nat)
    requires f < |items| && forall s :: !Speaks(items, f, s)
    ensures forall p, read, own :: ReadFrom(own, items, f, p, read, own)
  {
  }
}
